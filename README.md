# Attribute constraints, state objects, strategies and functional options

This project models a small collection of design-pattern gists, written in
Python and Go, and proves properties of the model.

- **Private-slot validators** (`python3-gist/descriptor.py`, module `PrivateSlot`).
  - A `Validator` is a class-level data descriptor. `__set_name__` gives it the private name `_f` of its field `f`.
  - `__set__` runs the concrete validator's `validate`, then stores the value under `_f`. `__get__` reads the value back.
  - The `OneOf` validator tests set membership using Python's `==`.
  - The `Number` validator tests for an `int` or `float`, then the minimum, then the maximum.
  - The `String` validator tests for a `str`, then the minimum length, then the maximum length, then the predicate.
  - `Component` declares three such fields and assigns them in order.
- **Direct-slot descriptors** (`python3-gist/descriptor-2.py`, module `DirectSlot`).
  - `Descriptor(name, **opts)` stores its options as attributes, and its `__set__` writes `instance.__dict__[name]`.
  - `Typed`, `Unsigned` and `MaxSized` add checks that chain through `super().__set__`.
  - The composed classes (`UnsignedInteger`, `SizedString`, …) combine these checks along Python's method resolution order. The model writes each class's resolution order out and proves that it is the order Python's C3 linearisation computes from the class statement.
  - The chain of checks each class runs is derived from that order. `Stock` declares four fields with these classes.
- **State objects** (`python3-gist/state.py` as module `PyConnection`, `golang-gist/state.go` as module `GoConnection`).
  - A connection hands every operation to its current state. That state may switch the connection to another state.
  - Both modules are proved to follow one transition table.
- **Strategy registry** (`python3-gist/register.py`, module `Strategies`).
  - A decorator files each strategy class in a module-level dictionary under its `name`.
  - An `Adder` looks its strategy up by name and delegates to it.
- **Functional options** (`golang-gist/options.go`, module `ServerOptions`).
  - Each `WithOptionsN` returns a closure that sets one field.
  - `NewServer` runs the given closures, in order, on a zero `Options`.

Shared definitions:

- **`Wrappers`**: `Option`, `Result` and `Outcome`.
- **`PyValues`**: the Python values the validators see (`None`, `bool`, `int`, `float`, `str`).
  - It also models the built-ins the validators use: `isinstance`, where `bool` counts as `int`.
  - The ordering operators, which raise `TypeError` across unrelated types.
  - `len`, and the numeric `==` behind `in`.

Objects whose fields the source changes in place are Dafny classes. Each
method's `ensures` ties the new state to a pure function, and the lemmas are
stated about those functions. Examples:

- `Validator.Set` is tied to `Write`.
- `Descriptor.Set` is tied to `Assign`.
- `Connections.Open` is tied to `Next`.
- `NewServer` is tied to `ApplyAll`.

Behaviours kept as the code has them:

- **Nothing stored for SizedString.** `MaxSized.__set__` never calls `super().__set__`, so a `SizedString` field validates its value but never stores it.
- **Age stored under 18.** `Stock` declares `age = Integer(18)`, so the age is stored under the key `18` rather than `"age"`.
- **Options set as attributes.** Descriptor options are set as arbitrary attributes, as the code does, rather than as a fixed configuration record.
- **Reads are never validated.** No validator checks on read.
- **Construction is not atomic.** When assignment k (counting from 0) raises, the constructor raises that error and assignments 0..k−1 stay on the instance. The model proves it (`WriteAllStopsAtFirstFailure`, `AssignAllStopsAtFirstFailure`).

## Model

| member | source | states |
|---|---|---|
| PyValues.IsInstance | python3-gist/descriptor.py:78 | `isinstance` for the built-in types named: each value is an instance of its own type, and True and False of int as well |
| PyValues.PyEq | python3-gist/descriptor.py:63 | `==`: numbers are equal when their values are, across bool, int and float; other values only when identical |
| PyValues.Compare | python3-gist/descriptor.py:80-87 | `<`/`>` succeed exactly on two numbers or two strings, with the numeric order for numbers; any other pair raises TypeError |
| PyValues.Len | python3-gist/descriptor-2.py:44 | `len` is defined exactly on str and gives its length; otherwise TypeError |
| PrivateSlot.MakeOneOf | python3-gist/descriptor.py:59-60 | OneOf's options become a set holding exactly the given values (Python's `set` keeps one of several `==`-equal values; membership under `==` is the same) |
| PrivateSlot.OneOfIgnoresOrderAndDuplicates | python3-gist/descriptor.py:59-63 | two OneOf validators over the same values, in any order or multiplicity, accept and reject the same values |
| PrivateSlot.ValidateOneOf | python3-gist/descriptor.py:62-65 | passes iff the value is `==` to some option (so 1 passes for option 1.0); otherwise ValueError from the membership test |
| PrivateSlot.ValidateNumber | python3-gist/descriptor.py:77-87 | passes iff an int/float within the optional inclusive bounds; a non-number raises TypeError first, then below-minimum and above-maximum raise ValueError in that order |
| PrivateSlot.ValidateString | python3-gist/descriptor.py:100-114 | passes iff a str whose length is within the optional inclusive bounds and which satisfies the predicate; TypeError first, then minimum, maximum and predicate in that order; the predicate fails exactly when all earlier tests passed and it returns false |
| PrivateSlot.Validate | python3-gist/descriptor.py:46 | `self.validate(value)` dispatches to the concrete validator's test; its meaning per validator is stated by `ValidateOneOf`, `ValidateNumber` and `ValidateString` |
| PrivateSlot.PrivateName | python3-gist/descriptor.py:21-28 | the private name is the field name with one leading underscore |
| PrivateSlot.PrivateNameInjective | python3-gist/descriptor.py:28 | distinct field names never share a private slot |
| PrivateSlot.Read | python3-gist/descriptor.py:30-37 | `__get__` gives the value under the private name when the field is bound and the slot is set; otherwise the unbound or missing-slot error |
| PrivateSlot.Write | python3-gist/descriptor.py:39-47 | `__set__` adds exactly the private slot, holding the value; a value that fails validation raises that validation error |
| PrivateSlot.WriteSucceedsIffValid | python3-gist/descriptor.py:39-47 | an assignment succeeds iff the value validates and the field is bound; a failed validation is the error raised |
| PrivateSlot.ReadAfterWrite | python3-gist/descriptor.py:30-47 | after a successful assignment the field reads back exactly the assigned value |
| PrivateSlot.WriteTouchesOnlyItsSlot | python3-gist/descriptor.py:47 | a successful assignment adds or replaces only the private slot; every other attribute is unchanged |
| PrivateSlot.WriteIdempotent | python3-gist/descriptor.py:39-47 | assigning the same valid value again leaves the instance as it is |
| PrivateSlot.ReadBeforeWrite | python3-gist/descriptor.py:37 | reading a bound field that was never assigned raises AttributeError for the missing private slot |
| PrivateSlot.Validator.SetName | python3-gist/descriptor.py:21-28 | binding the validator to field `f` sets its private name to `_f` |
| PrivateSlot.Validator.Get | python3-gist/descriptor.py:30-37 | returns the value stored in the instance under the private name, or the error of reading it |
| PrivateSlot.Validator.Set | python3-gist/descriptor.py:39-47 | changes the instance exactly as `Write` says, and leaves it unchanged when validation (or binding) fails |
| PrivateSlot.WriteAll | python3-gist/descriptor.py:123-126 | a constructor's assignments, in order, never remove an attribute already set |
| PrivateSlot.WriteAllStopsAtFirstFailure | python3-gist/descriptor.py:123-126 | when assignment k (counting from 0) of a constructor fails, the constructor raises that error with assignments 0..k−1 kept |
| PrivateSlot.WriteAllReadBack | python3-gist/descriptor.py:123-126 | after a construction that raised nothing, each distinctly bound field reads back its argument |
| PrivateSlot.KeptByLaterWrites | python3-gist/descriptor.py:123-126 | assignments to other fields keep an attribute already set |
| PrivateSlot.IsUpper | python3-gist/descriptor.py:119 | `str.isupper` on ASCII text: some upper-case letter and no lower-case one |
| PrivateSlot.ComponentInit | python3-gist/descriptor.py:123-126 | `Component(name, kind, quantity)` as the state it leaves; `ComponentInitSteps`, `ComponentConstructed` and `ComponentPartiallyBuilt` state what that is |
| PrivateSlot.ComponentInitSteps | python3-gist/descriptor.py:117-126 | Component's constructor is its three assignments, name, kind, quantity, each stopping on error |
| PrivateSlot.ComponentConstructed | python3-gist/descriptor.py:117-126 | Component construction succeeds iff all three values validate, and then holds exactly `_name`, `_kind`, `_quantity` |
| PrivateSlot.ComponentPartiallyBuilt | python3-gist/descriptor.py:123-126 | a rejected kind raises its error and leaves only `_name` on the instance |
| PrivateSlot.ComponentNameChecksInOrder | python3-gist/descriptor.py:100-119 | "AB" and "ab" are refused by the minimum-length test before the predicate; "abc" by the predicate |
| PrivateSlot.ComponentClass.constructor | python3-gist/descriptor.py:117-121 | the class body creates the three validators and binds them to `_name`, `_kind`, `_quantity` |
| PrivateSlot.ComponentClass.New | python3-gist/descriptor.py:123-126 | a fresh instance whose outcome and attributes are those of `ComponentInit` |
| DirectSlot.Bases | python3-gist/descriptor-2.py:4-69 | the bases each class statement lists, in order (`Descriptor` has none) |
| DirectSlot.Mro | python3-gist/descriptor-2.py:4-69 | each class's method resolution order; `MroIsC3` proves it is the C3 linearisation of `Bases` |
| DirectSlot.Merge | python3-gist/descriptor-2.py:48-69 | the C3 merge: repeatedly take the first list head that is in no list's tail and remove it from every list; no such head means an inconsistent hierarchy |
| DirectSlot.C3 | python3-gist/descriptor-2.py:48-69 | the class followed by the merge of its bases' orders and its list of bases, as Python linearises a class statement |
| DirectSlot.MroIsC3 | python3-gist/descriptor-2.py:48-69 | each written-out resolution order is the class followed by the C3 merge of its bases' orders and its list of bases, as Python computes it |
| DirectSlot.DeclaredExpectedType | python3-gist/descriptor-2.py:14-65 | the `expected_type` each class body assigns: NoneType in Typed, int, float and str in Integer, Float and String, none elsewhere |
| DirectSlot.ExpectedTypeIn | python3-gist/descriptor-2.py:14-65 | the `expected_type` attribute lookup finds: the first declaration along the resolution order; `TypedAcceptsIffInstance` states its value per class |
| DirectSlot.SetterSteps | python3-gist/descriptor-2.py:10-45 | the `__set__` bodies met along a resolution order, each `super().__set__` moving on to the next class that defines one, and MaxSized's ending the chain |
| DirectSlot.SetChain | python3-gist/descriptor-2.py:10-69 | the chain a class's `__set__` runs; `SetChainTable` and `ChainStoresIffStores` state it per class |
| DirectSlot.InitOwner | python3-gist/descriptor-2.py:5-41 | the class whose `__init__` runs: the first along the resolution order that defines one, which is always Descriptor or MaxSized |
| DirectSlot.SetChainTable | python3-gist/descriptor-2.py:10-69 | the chain of `__set__` methods of each class, e.g. UnsignedInteger: type, sign, store; SizedString: type, size, and no store |
| DirectSlot.Run | python3-gist/descriptor-2.py:10-45 | the `super().__set__` chain stores only when it reaches Descriptor's `__set__`, and only Typed, Unsigned and MaxSized raise |
| DirectSlot.Assign | python3-gist/descriptor-2.py:10-45 | an assignment either leaves the dictionary alone or writes the value under the descriptor's name; only the checking classes raise |
| DirectSlot.RunStoresIffStoreStep | python3-gist/descriptor-2.py:10-45 | a chain that completes stores iff it reaches Descriptor.__set__ |
| DirectSlot.ChainStoresIffStores | python3-gist/descriptor-2.py:37-69 | a class's chain reaches Descriptor.__set__ iff MaxSized is not in its resolution order |
| DirectSlot.AssignWritesOnlyItsKey | python3-gist/descriptor-2.py:10-11 | an accepted value is written under the descriptor's name only, for classes that store; otherwise the dictionary is unchanged |
| DirectSlot.TypedAcceptsIffInstance | python3-gist/descriptor-2.py:14-23 | Typed, Integer, Float, String accept exactly instances of their expected type (bare Typed: NoneType) and raise Typed's TypeError otherwise; an `expected_type` option makes every assignment raise TypeError |
| DirectSlot.UnsignedRejectsNegative | python3-gist/descriptor-2.py:26-34 | Unsigned raises TypeError for non-numbers, ValueError below zero, and stores zero and above |
| DirectSlot.UnsignedTypedChecksTypeFirst | python3-gist/descriptor-2.py:52-61 | UnsignedInteger and UnsignedFloat check the type before the sign: the wrong type (or an `expected_type` option) raises Typed's TypeError, a well-typed negative value Unsigned's ValueError, and anything else is stored |
| DirectSlot.MaxSizedIsStrict | python3-gist/descriptor-2.py:43-45 | with size n, a string passes iff strictly shorter than n; length n raises ValueError; nothing is stored either way |
| DirectSlot.MaxSizedNeverStores | python3-gist/descriptor-2.py:43-45 | a MaxSized or SizedString field never changes the instance dictionary |
| DirectSlot.OptionsMap | python3-gist/descriptor-2.py:5-8 | the descriptor has an attribute for exactly the keywords given |
| DirectSlot.OptionsMapValue | python3-gist/descriptor-2.py:7-8 | each keyword's attribute holds that keyword's value |
| DirectSlot.Descriptor.constructor | python3-gist/descriptor-2.py:5-8 | the descriptor's name and attributes are the name and options given |
| DirectSlot.Descriptor.Set | python3-gist/descriptor-2.py:10-45 | changes the instance exactly as `Assign` says, and leaves it unchanged when a check raises |
| DirectSlot.NewDescriptor | python3-gist/descriptor-2.py:5-41 | construction raises TypeError iff an option is called `name` (it collides with the named parameter), or MaxSized's `__init__` runs and no `size` is given; otherwise a descriptor with the given name and options |
| DirectSlot.SizeDemandedByMaxSized | python3-gist/descriptor-2.py:37-69 | MaxSized's `__init__` runs exactly for classes with MaxSized in their resolution order |
| DirectSlot.GetAttr | python3-gist/descriptor-2.py:72-76 | with no `__get__`, reading a field gives the dictionary's entry under its name when there is one, and the descriptor otherwise |
| DirectSlot.AssignAll | python3-gist/descriptor-2.py:78-82 | a constructor's assignments, in order, never remove a key already stored |
| DirectSlot.AssignAllStopsAtFirstFailure | python3-gist/descriptor-2.py:78-82 | when assignment k (counting from 0) raises, the constructor raises it with assignments 0..k−1 kept |
| DirectSlot.StockFieldAssigns | python3-gist/descriptor-2.py:72-76 | what each of Stock's four fields does with a value: the name is checked but not stored, the age stored under 18, shares and price stored under their names after the type and sign checks |
| DirectSlot.StockInit | python3-gist/descriptor-2.py:78-82 | `Stock(name, age, shares, price)` as the state it leaves; `StockInitSteps`, `StockConstructed` and `StockPriceMustBeFloat` state what that is |
| DirectSlot.StockInitSteps | python3-gist/descriptor-2.py:72-82 | Stock's constructor is its four assignments in order, each stopping on error |
| DirectSlot.StockConstructed | python3-gist/descriptor-2.py:72-82 | Stock construction succeeds iff the name is a str shorter than 8, age an int, shares a non-negative int, price a non-negative float; the dictionary then holds age under 18, shares and price, and no name |
| DirectSlot.StockPriceMustBeFloat | python3-gist/descriptor-2.py:56-82 | an int price raises Typed's TypeError after age and shares were stored |
| DirectSlot.StockClass.constructor | python3-gist/descriptor-2.py:72-76 | the four descriptors are SizedString('name', size=8), Integer(18), UnsignedInteger('shares'), UnsignedFloat('price') |
| DirectSlot.StockClass.New | python3-gist/descriptor-2.py:78-82 | a fresh instance whose outcome and dictionary are those of `StockInit` |
| PyConnection.StateClass.Read | python3-gist/state.py:40-61 | closed raises RuntimeError "Not open"; open succeeds; the state is unchanged |
| PyConnection.StateClass.Write | python3-gist/state.py:45-65 | closed raises RuntimeError "Not open"; open succeeds; the state is unchanged |
| PyConnection.StateClass.Open | python3-gist/state.py:49-69 | closed switches the connection to open; open raises "Already open" and stays |
| PyConnection.StateClass.Close | python3-gist/state.py:53-73 | open switches the connection to closed; closed raises "Not open" and stays |
| PyConnection.Next | python3-gist/state.py:40-73 | an operation that raises never changes the state; only open and close change it; an operation succeeds iff (state is open) differs from (the operation is open) |
| PyConnection.OpenCloseRoundTrip | python3-gist/state.py:49-73 | open, any reads and writes, then close return a closed connection to closed |
| PyConnection.ReadWriteKeepState | python3-gist/state.py:40-65 | reads and writes never change the state |
| PyConnection.Run | python3-gist/state.py:9-19 | after a run of operations ending with open the connection is open, and after one ending with close it is closed |
| PyConnection.RunAppend | python3-gist/state.py:9-19 | running two sequences of operations one after the other is running their concatenation |
| PyConnection.Connections.constructor | python3-gist/state.py:2-4 | a new connection is closed |
| PyConnection.Connections.NewState | python3-gist/state.py:6-7 | replaces the state with the given one |
| PyConnection.Connections.Read | python3-gist/state.py:9-10 | new state and outcome are those of `Next` for read |
| PyConnection.Connections.Write | python3-gist/state.py:12-13 | new state and outcome are those of `Next` for write |
| PyConnection.Connections.Open | python3-gist/state.py:15-16 | new state and outcome are those of `Next` for open |
| PyConnection.Connections.Close | python3-gist/state.py:18-19 | new state and outcome are those of `Next` for close |
| GoConnection.State.String | golang-gist/state.go:64-94 | "Open" for the open state, "Close" for the closed one |
| GoConnection.State.Open | golang-gist/state.go:68-102 | closed points the connection at a new open state; open returns "Connection already open" |
| GoConnection.State.Read | golang-gist/state.go:72-106 | open returns nil; closed returns "connection closed"; the state is unchanged |
| GoConnection.State.Write | golang-gist/state.go:77-110 | open returns nil; closed returns "connection closed"; the state is unchanged |
| GoConnection.State.Close | golang-gist/state.go:82-114 | open points the connection at a new closed state; closed returns "connection closed" |
| GoConnection.Step | golang-gist/state.go:62-114 | an operation that errs never changes the phase; only Open and Close change it; an operation returns nil iff (phase is open) differs from (the operation is Open) |
| GoConnection.Steps | golang-gist/state.go:46-60 | after a run of operations ending with Open the connection is open, and after one ending with Close it is closed |
| GoConnection.AgreesWithPythonConnection | golang-gist/state.go:62-114 | each Go transition has the same next state as the Python one, and errs exactly where Python raises |
| GoConnection.StepsAgreeWithPythonRun | golang-gist/state.go:62-114 | over any sequence of operations the Go connection ends in the state the Python one does |
| GoConnection.Connection.constructor | golang-gist/state.go:33-40 | NewConnection: a valid connection in the closed state that points back to itself |
| GoConnection.Connection.String | golang-gist/state.go:42-44 | "Open" iff open, "Close" iff closed |
| GoConnection.Connection.Open | golang-gist/state.go:46-48 | keeps the back-pointer; new phase and error are those of `Step` for Open |
| GoConnection.Connection.Read | golang-gist/state.go:50-52 | keeps the back-pointer; new phase and error are those of `Step` for Read |
| GoConnection.Connection.Write | golang-gist/state.go:54-56 | keeps the back-pointer; new phase and error are those of `Step` for Write |
| GoConnection.Connection.Close | golang-gist/state.go:58-60 | keeps the back-pointer; new phase and error are those of `Step` for Close |
| Strategies.StrategyClass.Name | python3-gist/register.py:17-32 | the `name` class attribute: "StringStrategy" and "IntegerStrategy"; `StrategiesAreDisjoint` and `LoadedRegistry` use it as the registry key |
| Strategies.StringAdd | python3-gist/register.py:21-27 | succeeds iff both are str; `a` is checked first and the TypeError names the rejected operand; the result is `a`, then ", ", then `b` |
| Strategies.IntegerAdd | python3-gist/register.py:34-40 | succeeds iff both are int instances (bool included); `a` is checked first; the result is the numeric sum |
| Strategies.StrategyAdd | python3-gist/register.py:21-40 | `add` raises only TypeError naming an operand; the string strategy returns a str and the integer one an int |
| Strategies.StrategiesAreDisjoint | python3-gist/register.py:17-40 | no operands are accepted by both strategies |
| Strategies.RegisterAll | python3-gist/register.py:6-8 | registering never drops a name, and a name no registered class uses keeps its entry |
| Strategies.RegisterAllFindsEach | python3-gist/register.py:6-8 | registering keeps every entry under its class's name, finds each registered class under its name, and adds no other key |
| Strategies.LoadedRegistry | python3-gist/register.py:3-31 | after the module loads, the registry maps exactly "StringStrategy" and "IntegerStrategy" to their classes |
| Strategies.StrategyTable.constructor | python3-gist/register.py:3-31 | module load leaves a registry keyed by name equal to registering the two classes in order |
| Strategies.StrategyTable.Register | python3-gist/register.py:6-8 | files the class under its name, replacing any earlier entry, keeps the registry keyed by name, and returns the class unchanged |
| Strategies.Adder.New | python3-gist/register.py:44-45 | succeeds iff the name is registered, with that class as strategy, whose `name` is the name looked up; otherwise KeyError naming it |
| Strategies.Adder.Add | python3-gist/register.py:47-49 | the result is what the strategy's add returns or raises |
| ServerOptions.ServerOption.Invoke | golang-gist/options.go:22-36 | calling the closure changes the record as `ApplyTo` says |
| ServerOptions.ApplyTo | golang-gist/options.go:22-36 | a closure changes only the field of its own kind |
| ServerOptions.WithOptions1 | golang-gist/options.go:21-25 | the closure sets Options1 to the argument and keeps the other fields |
| ServerOptions.WithOptions2 | golang-gist/options.go:27-31 | the closure sets Options2 to the argument and keeps the other fields |
| ServerOptions.WithOptions3 | golang-gist/options.go:33-37 | the closure sets Options3 to the argument and keeps the other fields |
| ServerOptions.ApplyAll | golang-gist/options.go:46-49 | after the options run, each field holds its starting value or the value some option of its kind supplied |
| ServerOptions.ApplyAllAppend | golang-gist/options.go:47-49 | running `a + b` is running `a`, then `b` |
| ServerOptions.UnsetFieldKeepsItsValue | golang-gist/options.go:21-49 | a field no given option sets keeps its value |
| ServerOptions.LastOptionWins | golang-gist/options.go:39-49 | the last option for a field decides its value, whatever preceded it |
| ServerOptions.NoOptionsGiveZero | golang-gist/options.go:46 | with no options every field keeps its zero value |
| ServerOptions.Options.constructor | golang-gist/options.go:46 | `&Options{}` has every field at its zero value |
| ServerOptions.Server.constructor | golang-gist/options.go:40-44 | the server holds the given name, host, port and options |
| ServerOptions.NewServer | golang-gist/options.go:39-54 | a fresh server with the given name, host and port, whose fresh options are the given ones run in order on a zero record |

## Left out

- Floats are exact real numbers: NaN, infinities and rounding are not modelled.
- `str.isupper` is modelled for ASCII letters only: a string is upper case when it has an ASCII upper-case letter and no ASCII lower-case one.
- The text of exception messages in the Python code is not modelled. Only the exception kind and the test, or the class, that raised it are kept. The Go error strings and the Python `RuntimeError` messages are kept.
- Printing is not modelled. This covers what `OpenConnectionState.read`/`write` and the Go `Read`/`Write` print, and the two lines `Adder.add` prints. The modelled `Adder.Add` returns the value that would be printed.
- The `__main__` and `main` demonstration blocks are not modelled.
- `golang-gist/accesser.go` is not part of this model.
- PrivateSlot: a predicate is a pure Dafny function, so a predicate that raises is not modelled.
- PrivateSlot: `__get__` on the class (`instance` is None) is not modelled. The abstract base class machinery of `Validator`, `ConnectionState` and `BaseAddStrategy` is not modelled either: instantiating an abstract class, and the `NotImplementedError` defaults.
- DirectSlot: option values are Python values of the modelled kinds, none of which is a type, so any `expected_type` option makes Typed's `isinstance` raise TypeError. An option that overrides `expected_type` with a type object is not modelled.
- PrivateSlot: `MakeOneOf` keeps every given value, where Python's `set(options)` keeps one value per group of `==`-equal ones (`OneOf(1, 1.0, True).options == {1}`). Membership under `==`, and so validation, is the same either way.
- Read: the instance is a plain attribute dictionary. Python's `getattr(instance, self.private_name)` (python3-gist/descriptor.py:37) goes through the owner class, so if the private name were also the public name of another field of the same class (`x = String(); _x = Number()`), that field's `__get__` would run instead. The model assumes no private name is a field of its own class, which holds for `Component`.
- Write: for the same reason, `setattr(instance, self.private_name, value)` (python3-gist/descriptor.py:47) would run another field's `__set__`, with its own validation, if the private name were that field's public name. The model assumes it is not.
- WriteSucceedsIffValid: the iff holds under the same assumption. A private name that is another field's public name would add that field's validation, and its error, to the assignment.
- WriteTouchesOnlyItsSlot: under the same assumption. With a colliding private name, the write would go to that other field's private slot instead.
- PrivateSlot.Validator.Get: reads the instance's dictionary directly, under the assumption stated for `Read`.
- PrivateSlot.Validator.Set: writes the instance's dictionary directly, under the assumption stated for `Write`.
- WriteAllReadBack: under the same assumption. `DistinctlyBound` asks that private names differ from each other, not that they differ from the fields' public names.
- KeptByLaterWrites: under the same assumption. A later field whose private name is an earlier field's public name would change a different slot from the one modelled.
- DirectSlot: instance dictionary keys compare structurally. Python's dict would also treat `1`, `1.0` and `True` as one key.
- PyConnection: the `_state = None` that `Connections.__init__` holds before calling `new_state` is not modelled. No operation can run in between.
- GoConnection: Go allocates a new state struct on every transition. The model compares state values, so pointer identity of state structs is not modelled.
- GoConnection: a `Connection{}` built without `NewConnection` has a nil state and panics on use. The model requires a connection made by `NewConnection`.
- ServerOptions: `Options2` (an `int`) and `Options3` (a `time.Duration`) are unbounded integers in the model. options.go does no arithmetic on them, so the 64-bit width only bounds which values can be passed in, and that bound is not modelled.
- ServerOptions.NewServer: a nil `ServerOption` among the arguments makes Go panic at `op(options)` (golang-gist/options.go:48). The modelled `ServerOption` has no nil case, so that panic is not modelled.
- Strategies: the module-level dictionary is a `StrategyTable` object. Only the two strategy classes the module defines are modelled; registering any other class is not.
