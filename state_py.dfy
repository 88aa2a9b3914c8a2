/**
 * The connection state machine of python3-gist/state.py.
 *
 * A Connections object keeps its current state class in `_state` and hands
 * every operation to that class's static method, passing itself along; the
 * state classes switch the connection to another state through new_state.
 * Closed accepts only open; Open refuses only open.
 */
module PyConnection {
  import opened Wrappers
  import opened PyValues

  /** The operations a connection offers. */
  datatype Op = ReadOp | WriteOp | OpenOp | CloseOp

  /** The state classes; `_state` holds one of them (the class itself, not an instance). */
  datatype StateClass = ClosedConnectionState | OpenConnectionState {

    /** read(conn) */
    method Read(conn: Connections) returns (r: Outcome<string>)
      modifies conn
      ensures this == ClosedConnectionState ==> r == Fail("Not open") && conn.state == old(conn.state)
      ensures this == OpenConnectionState ==> r == Pass && conn.state == old(conn.state)
    {
      match this
      case ClosedConnectionState => r := Fail("Not open");
      case OpenConnectionState => r := Pass;
    }

    /** write(conn, data) */
    method Write(conn: Connections, data: Value) returns (r: Outcome<string>)
      modifies conn
      ensures this == ClosedConnectionState ==> r == Fail("Not open") && conn.state == old(conn.state)
      ensures this == OpenConnectionState ==> r == Pass && conn.state == old(conn.state)
    {
      match this
      case ClosedConnectionState => r := Fail("Not open");
      case OpenConnectionState => r := Pass;
    }

    /** open(conn) */
    method Open(conn: Connections) returns (r: Outcome<string>)
      modifies conn
      ensures this == ClosedConnectionState ==> r == Pass && conn.state == OpenConnectionState
      ensures this == OpenConnectionState ==> r == Fail("Already open") && conn.state == old(conn.state)
    {
      match this
      case ClosedConnectionState =>
        conn.NewState(OpenConnectionState);
        r := Pass;
      case OpenConnectionState => r := Fail("Already open");
    }

    /** close(conn) */
    method Close(conn: Connections) returns (r: Outcome<string>)
      modifies conn
      ensures this == ClosedConnectionState ==> r == Fail("Not open") && conn.state == old(conn.state)
      ensures this == OpenConnectionState ==> r == Pass && conn.state == ClosedConnectionState
    {
      match this
      case ClosedConnectionState => r := Fail("Not open");
      case OpenConnectionState =>
        conn.NewState(ClosedConnectionState);
        r := Pass;
    }
  }

  /**
   * The transition table the state classes implement: the state after `op`
   * and whether `op` raised RuntimeError (with its message).
   */
  function Next(s: StateClass, op: Op): (r: (StateClass, Outcome<string>))
    ensures r.1.Fail? ==> r.0 == s
    ensures r.0 != s ==> r.1.Pass? && (op == OpenOp || op == CloseOp)
    ensures op == ReadOp || op == WriteOp ==> r.0 == s
    ensures r.1.Pass? <==> (s == OpenConnectionState) != (op == OpenOp)
  {
    match (s, op)
    case (ClosedConnectionState, OpenOp) => (OpenConnectionState, Pass)
    case (ClosedConnectionState, _) => (s, Fail("Not open"))
    case (OpenConnectionState, OpenOp) => (s, Fail("Already open"))
    case (OpenConnectionState, CloseOp) => (ClosedConnectionState, Pass)
    case (OpenConnectionState, _) => (s, Pass)
  }

  /** The state after a sequence of operations, each applied whether or not an earlier one raised. */
  function Run(s: StateClass, ops: seq<Op>): (r: StateClass)
    ensures ops != [] && ops[|ops| - 1] == OpenOp ==> r == OpenConnectionState
    ensures ops != [] && ops[|ops| - 1] == CloseOp ==> r == ClosedConnectionState
    decreases |ops|
  {
    if ops == [] then s else Run(Next(s, ops[0]).0, ops[1..])
  }

  /** Opening and then closing returns a connection to where it started, whatever it was in between. */
  lemma {:induction false} OpenCloseRoundTrip(ops: seq<Op>)
    requires forall i :: 0 <= i < |ops| ==> ops[i] == ReadOp || ops[i] == WriteOp
    ensures Run(ClosedConnectionState, [OpenOp] + ops + [CloseOp]) == ClosedConnectionState
  {
    ReadWriteKeepState(OpenConnectionState, ops);
    RunAppend(OpenConnectionState, ops, [CloseOp]);
    assert ([OpenOp] + ops + [CloseOp])[1..] == ops + [CloseOp];
  }

  /** Reads and writes never change the state. */
  lemma {:induction false} ReadWriteKeepState(s: StateClass, ops: seq<Op>)
    requires forall i :: 0 <= i < |ops| ==> ops[i] == ReadOp || ops[i] == WriteOp
    ensures Run(s, ops) == s
    decreases |ops|
  {
    if ops != [] {
      ReadWriteKeepState(s, ops[1..]);
    }
  }

  /** Running `a + b` runs `a`, then `b` from where `a` left off. */
  lemma {:induction false} RunAppend(s: StateClass, a: seq<Op>, b: seq<Op>)
    ensures Run(s, a + b) == Run(Run(s, a), b)
    decreases |a|
  {
    if a != [] {
      var t := Next(s, a[0]).0;
      assert (a + b)[0] == a[0];
      assert (a + b)[1..] == a[1..] + b;
      assert Run(s, a + b) == Run(t, a[1..] + b);
      assert Run(s, a) == Run(t, a[1..]);
      RunAppend(t, a[1..], b);
    } else {
      assert a + b == b;
    }
  }

  /** A connection object. */
  class Connections {
    var state: StateClass

    /** __init__: the connection starts closed. */
    constructor ()
      ensures state == ClosedConnectionState
    {
      new;
      NewState(ClosedConnectionState);
    }

    /** new_state: replaces the current state and nothing else. */
    method NewState(newState: StateClass)
      modifies this
      ensures state == newState
    {
      state := newState;
    }

    method Read() returns (r: Outcome<string>)
      modifies this
      ensures (state, r) == Next(old(state), ReadOp)
    {
      r := state.Read(this);
    }

    method Write(data: Value) returns (r: Outcome<string>)
      modifies this
      ensures (state, r) == Next(old(state), WriteOp)
    {
      r := state.Write(this, data);
    }

    method Open() returns (r: Outcome<string>)
      modifies this
      ensures (state, r) == Next(old(state), OpenOp)
    {
      r := state.Open(this);
    }

    method Close() returns (r: Outcome<string>)
      modifies this
      ensures (state, r) == Next(old(state), CloseOp)
    {
      r := state.Close(this);
    }
  }
}
