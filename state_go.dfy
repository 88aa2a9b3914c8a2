/**
 * The connection state machine of golang-gist/state.go.
 *
 * A Connection holds a State interface value; the two implementations,
 * OpenConnection and CloseConnection, each keep a pointer back to the
 * connection and switch it to the other state by storing a fresh state
 * value in it. A nil error is `None` here, a non-nil one `Some(message)`.
 */
module GoConnection {
  import opened Wrappers
  import Py = PyConnection

  /** The State implementations, each with its back-pointer to the connection. */
  datatype State = OpenConnection(conn: Connection) | CloseConnection(conn: Connection) {

    /** String(): the name of the state. */
    function String(): (r: string)
      ensures r == PhaseName(PhaseOf(this))
    {
      match this
      case OpenConnection(_) => "Open"
      case CloseConnection(_) => "Close"
    }

    method Open() returns (err: Option<string>)
      modifies conn
      ensures this.OpenConnection? ==> err == Some("Connection already open") && conn.state == old(conn.state)
      ensures this.CloseConnection? ==> err == None && conn.state == Some(OpenConnection(conn))
    {
      match this
      case OpenConnection(_) => err := Some("Connection already open");
      case CloseConnection(c) =>
        c.state := Some(OpenConnection(c));
        err := None;
    }

    method Read() returns (err: Option<string>)
      modifies conn
      ensures this.OpenConnection? ==> err == None && conn.state == old(conn.state)
      ensures this.CloseConnection? ==> err == Some("connection closed") && conn.state == old(conn.state)
    {
      match this
      case OpenConnection(_) => err := None;
      case CloseConnection(_) => err := Some("connection closed");
    }

    method Write() returns (err: Option<string>)
      modifies conn
      ensures this.OpenConnection? ==> err == None && conn.state == old(conn.state)
      ensures this.CloseConnection? ==> err == Some("connection closed") && conn.state == old(conn.state)
    {
      match this
      case OpenConnection(_) => err := None;
      case CloseConnection(_) => err := Some("connection closed");
    }

    method Close() returns (err: Option<string>)
      modifies conn
      ensures this.OpenConnection? ==> err == None && conn.state == Some(CloseConnection(conn))
      ensures this.CloseConnection? ==> err == Some("connection closed") && conn.state == old(conn.state)
    {
      match this
      case OpenConnection(c) =>
        c.state := Some(CloseConnection(c));
        err := None;
      case CloseConnection(_) => err := Some("connection closed");
    }
  }

  /** Which of the two states a connection is in. */
  datatype Phase = Opened | Closed

  function PhaseOf(s: State): Phase {
    if s.OpenConnection? then Opened else Closed
  }

  function PhaseName(p: Phase): string {
    if p == Opened then "Open" else "Close"
  }

  /** The operations of the State interface that can fail. */
  datatype Op = OpenOp | ReadOp | WriteOp | CloseOp

  /** The transition table: the phase after `op` and the error it returns. */
  function Step(p: Phase, op: Op): (r: (Phase, Option<string>))
    ensures r.1.Some? ==> r.0 == p
    ensures r.0 != p ==> r.1.None? && (op == OpenOp || op == CloseOp)
    ensures r.1.None? <==> (p == Opened) != (op == OpenOp)
  {
    match (p, op)
    case (Closed, OpenOp) => (Opened, None)
    case (Closed, _) => (p, Some("connection closed"))
    case (Opened, OpenOp) => (p, Some("Connection already open"))
    case (Opened, CloseOp) => (Closed, None)
    case (Opened, _) => (p, None)
  }

  /** The phase after a sequence of operations, each applied whether or not an earlier one failed. */
  function Steps(p: Phase, ops: seq<Op>): (r: Phase)
    ensures ops != [] && ops[|ops| - 1] == OpenOp ==> r == Opened
    ensures ops != [] && ops[|ops| - 1] == CloseOp ==> r == Closed
    decreases |ops|
  {
    if ops == [] then p else Steps(Step(p, ops[0]).0, ops[1..])
  }

  function PyState(p: Phase): Py.StateClass {
    if p == Opened then Py.OpenConnectionState else Py.ClosedConnectionState
  }

  function PyOp(op: Op): Py.Op {
    match op
    case OpenOp => Py.OpenOp
    case ReadOp => Py.ReadOp
    case WriteOp => Py.WriteOp
    case CloseOp => Py.CloseOp
  }

  /**
   * The Go connection follows the same transitions as the Python one: the
   * same next state, and an error exactly where Python raises RuntimeError.
   */
  lemma AgreesWithPythonConnection(p: Phase, op: Op)
    ensures PyState(Step(p, op).0) == Py.Next(PyState(p), PyOp(op)).0
    ensures Step(p, op).1.Some? <==> Py.Next(PyState(p), PyOp(op)).1.Fail?
  {
  }

  /** The same holds over any sequence of operations. */
  lemma {:induction false} StepsAgreeWithPythonRun(p: Phase, ops: seq<Op>)
    ensures PyState(Steps(p, ops)) == Py.Run(PyState(p), seq(|ops|, i requires 0 <= i < |ops| => PyOp(ops[i])))
    decreases |ops|
  {
    var pyOps := seq(|ops|, i requires 0 <= i < |ops| => PyOp(ops[i]));
    if ops != [] {
      AgreesWithPythonConnection(p, ops[0]);
      StepsAgreeWithPythonRun(Step(p, ops[0]).0, ops[1..]);
      assert pyOps[1..] == seq(|ops[1..]|, i requires 0 <= i < |ops[1..]| => PyOp(ops[1..][i]));
    }
  }

  /** A connection; `state` is nil (`None`) only in a Connection built without NewConnection. */
  class Connection {
    var state: Option<State>

    /** The state is set and points back to this connection. */
    predicate Valid()
      reads this
    {
      state.Some? && state.value.conn == this
    }

    function CurrentPhase(): Phase
      reads this
      requires Valid()
    {
      PhaseOf(state.value)
    }

    /** NewConnection(): a connection in the closed state. */
    constructor ()
      ensures Valid() && CurrentPhase() == Closed
      ensures state == Some(CloseConnection(this))
    {
      state := None;
      new;
      state := Some(CloseConnection(this));
    }

    /** String(): delegates to the current state. */
    function String(): (r: string)
      reads this
      requires Valid()
      ensures r == "Open" <==> CurrentPhase() == Opened
      ensures r == "Close" <==> CurrentPhase() == Closed
    {
      state.value.String()
    }

    method Open() returns (err: Option<string>)
      requires Valid()
      modifies this
      ensures Valid() && (CurrentPhase(), err) == Step(old(CurrentPhase()), OpenOp)
    {
      err := state.value.Open();
    }

    method Read() returns (err: Option<string>)
      requires Valid()
      modifies this
      ensures Valid() && (CurrentPhase(), err) == Step(old(CurrentPhase()), ReadOp)
    {
      err := state.value.Read();
    }

    method Write() returns (err: Option<string>)
      requires Valid()
      modifies this
      ensures Valid() && (CurrentPhase(), err) == Step(old(CurrentPhase()), WriteOp)
    {
      err := state.value.Write();
    }

    method Close() returns (err: Option<string>)
      requires Valid()
      modifies this
      ensures Valid() && (CurrentPhase(), err) == Step(old(CurrentPhase()), CloseOp)
    {
      err := state.value.Close();
    }
  }
}
