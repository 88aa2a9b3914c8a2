/**
 * The functional options of golang-gist/options.go.
 *
 * Each WithOptionsN constructor returns a closure that sets one field of an
 * Options record through a pointer; NewServer allocates a zero Options and
 * runs every closure it is given on it, in order, so a later option for the
 * same field overrides an earlier one.
 */
module ServerOptions {

  /** The contents of an Options record; Options3 is a time.Duration, a count of nanoseconds. */
  datatype OptionsValue = OptionsValue(options1: string, options2: int, options3: int)

  /** The zero value `Options{}`. */
  const Zero := OptionsValue("", 0, 0)

  /** The field an option sets. */
  datatype OptionKind = Options1Kind | Options2Kind | Options3Kind

  /** An `option`: the closure returned by one of the WithOptionsN constructors, with the value it captured. */
  datatype ServerOption = SetOptions1(op1: string) | SetOptions2(op2: int) | SetOptions3(op3: int) {

    function Kind(): OptionKind {
      match this
      case SetOptions1(_) => Options1Kind
      case SetOptions2(_) => Options2Kind
      case SetOptions3(_) => Options3Kind
    }

    /** Calling the closure on a pointer to an Options record. */
    method Invoke(options: Options)
      modifies options
      ensures options.Value() == ApplyTo(this, old(options.Value()))
    {
      match this
      case SetOptions1(op1) => options.options1 := op1;
      case SetOptions2(op2) => options.options2 := op2;
      case SetOptions3(op3) => options.options3 := op3;
    }
  }

  /** What calling the closure does to the record's contents. */
  function ApplyTo(op: ServerOption, v: OptionsValue): (r: OptionsValue)
    ensures AgreeExcept(r, v, op.Kind())
  {
    match op
    case SetOptions1(op1) => v.(options1 := op1)
    case SetOptions2(op2) => v.(options2 := op2)
    case SetOptions3(op3) => v.(options3 := op3)
  }

  /** True when `a` and `b` agree on every field except the one of kind `k`. */
  predicate AgreeExcept(a: OptionsValue, b: OptionsValue, k: OptionKind) {
    (k == Options1Kind || a.options1 == b.options1) &&
    (k == Options2Kind || a.options2 == b.options2) &&
    (k == Options3Kind || a.options3 == b.options3)
  }

  /** WithOptions1: a closure that sets Options1 to `op1` and leaves the other fields alone. */
  function WithOptions1(op1: string): (r: ServerOption)
    ensures forall v :: ApplyTo(r, v).options1 == op1 && AgreeExcept(ApplyTo(r, v), v, Options1Kind)
  {
    SetOptions1(op1)
  }

  /** WithOptions2: a closure that sets Options2 to `op2` and leaves the other fields alone. */
  function WithOptions2(op2: int): (r: ServerOption)
    ensures forall v :: ApplyTo(r, v).options2 == op2 && AgreeExcept(ApplyTo(r, v), v, Options2Kind)
  {
    SetOptions2(op2)
  }

  /** WithOptions3: a closure that sets Options3 to `op3` and leaves the other fields alone. */
  function WithOptions3(op3: int): (r: ServerOption)
    ensures forall v :: ApplyTo(r, v).options3 == op3 && AgreeExcept(ApplyTo(r, v), v, Options3Kind)
  {
    SetOptions3(op3)
  }

  /** Running the options in order on a record with contents `v`. */
  function ApplyAll(v: OptionsValue, ops: seq<ServerOption>): (r: OptionsValue)
    ensures r.options1 == v.options1 || exists j :: 0 <= j < |ops| && ops[j] == SetOptions1(r.options1)
    ensures r.options2 == v.options2 || exists j :: 0 <= j < |ops| && ops[j] == SetOptions2(r.options2)
    ensures r.options3 == v.options3 || exists j :: 0 <= j < |ops| && ops[j] == SetOptions3(r.options3)
    decreases |ops|
  {
    if ops == [] then v
    else
      assert forall j :: 0 <= j < |ops| - 1 ==> ops[..|ops| - 1][j] == ops[j];
      ApplyTo(ops[|ops| - 1], ApplyAll(v, ops[..|ops| - 1]))
  }

  /** Running `a + b` runs `a` and then `b`. */
  lemma {:induction false} ApplyAllAppend(v: OptionsValue, a: seq<ServerOption>, b: seq<ServerOption>)
    ensures ApplyAll(v, a + b) == ApplyAll(ApplyAll(v, a), b)
    decreases |b|
  {
    if b == [] {
      assert a + b == a;
    } else {
      var b' := b[..|b| - 1];
      assert (a + b)[..|a + b| - 1] == a + b';
      assert (a + b)[|a + b| - 1] == b[|b| - 1];
      ApplyAllAppend(v, a, b');
    }
  }

  /** A field no option in `ops` sets keeps its value. */
  lemma {:induction false} UnsetFieldKeepsItsValue(v: OptionsValue, ops: seq<ServerOption>, k: OptionKind)
    requires forall j :: 0 <= j < |ops| ==> ops[j].Kind() != k
    ensures k == Options1Kind ==> ApplyAll(v, ops).options1 == v.options1
    ensures k == Options2Kind ==> ApplyAll(v, ops).options2 == v.options2
    ensures k == Options3Kind ==> ApplyAll(v, ops).options3 == v.options3
    decreases |ops|
  {
    if ops != [] {
      UnsetFieldKeepsItsValue(v, ops[..|ops| - 1], k);
    }
  }

  /** The last option for a field decides its value, whatever came before it. */
  lemma {:induction false} LastOptionWins(v: OptionsValue, ops: seq<ServerOption>, i: int)
    requires 0 <= i < |ops|
    requires forall j :: i < j < |ops| ==> ops[j].Kind() != ops[i].Kind()
    ensures ops[i].SetOptions1? ==> ApplyAll(v, ops).options1 == ops[i].op1
    ensures ops[i].SetOptions2? ==> ApplyAll(v, ops).options2 == ops[i].op2
    ensures ops[i].SetOptions3? ==> ApplyAll(v, ops).options3 == ops[i].op3
  {
    var front, back := ops[..i + 1], ops[i + 1..];
    assert ops == front + back;
    ApplyAllAppend(v, front, back);
    assert front[..|front| - 1] == ops[..i];
    var w := ApplyAll(v, front);
    assert w == ApplyTo(ops[i], ApplyAll(v, ops[..i]));
    forall j | 0 <= j < |back|
      ensures back[j].Kind() != ops[i].Kind()
    {
      assert back[j] == ops[i + 1 + j];
    }
    UnsetFieldKeepsItsValue(w, back, ops[i].Kind());
  }

  /** With no options every field keeps its zero value. */
  lemma NoOptionsGiveZero()
    ensures ApplyAll(Zero, []) == Zero
    ensures Zero.options1 == "" && Zero.options2 == 0 && Zero.options3 == 0
  {
  }

  /** The Options record that NewServer allocates. */
  class Options {
    var options1: string
    var options2: int
    var options3: int

    function Value(): OptionsValue
      reads this
    {
      OptionsValue(options1, options2, options3)
    }

    /** `&Options{}`: every field at its zero value. */
    constructor ()
      ensures Value() == Zero
    {
      options1 := "";
      options2 := 0;
      options3 := 0;
    }
  }

  /** A Server: its name, host and port, and the options it was built with. */
  class Server {
    var options: Options
    var name: string
    var host: string
    var port: int

    constructor (name: string, host: string, port: int, options: Options)
      ensures this.name == name && this.host == host && this.port == port && this.options == options
    {
      this.name := name;
      this.host := host;
      this.port := port;
      this.options := options;
    }
  }

  /** NewServer: a server with the given name, host and port whose options are the given ones run in order on a zero record. */
  method NewServer(name: string, host: string, port: int, ops: seq<ServerOption>) returns (server: Server)
    ensures fresh(server) && fresh(server.options)
    ensures server.name == name && server.host == host && server.port == port
    ensures server.options.Value() == ApplyAll(Zero, ops)
  {
    var options := new Options();
    for i := 0 to |ops|
      invariant options.Value() == ApplyAll(Zero, ops[..i])
    {
      ops[i].Invoke(options);
      assert ops[..i + 1][..i] == ops[..i];
    }
    assert ops[..|ops|] == ops;
    server := new Server(name, host, port, options);
  }
}
