/**
  * The idle-timeout connection holder used by the custom service adapter: it
  * keeps one JDBC connection per tenant database, closes it once it has been
  * idle for longer than the timeout, and opens a new one on the next use.
  */
module Supplier {
  import opened Common

  const LONG_MIN: int := -0x8000_0000_0000_0000
  const LONG_MAX: int := 0x7fff_ffff_ffff_ffff

  /** Java `long`. */
  type Int64 = x: int | LONG_MIN <= x <= LONG_MAX

  /** Five minutes, in milliseconds. */
  const CONNECTION_TIMEOUT: Int64 := 5 * 60 * 1000

  const NULL_CONNECTION := "Connection supplier returned null."

  /** Java `long` addition, which wraps around. */
  function AddLong(a: Int64, b: Int64): (r: Int64)
    ensures LONG_MIN <= a + b <= LONG_MAX ==> r == a + b
  {
    var s := a + b;
    if s > LONG_MAX then s - 0x1_0000_0000_0000_0000
    else if s < LONG_MIN then s + 0x1_0000_0000_0000_0000
    else s
  }

  /** An open JDBC connection. */
  class Connection {
    var closed: bool

    constructor ()
      ensures !closed
    {
      closed := false;
    }

    /** Closing may fail with the driver's SQLException; `answer` is the driver's reply. */
    method Close(answer: Outcome) returns (o: Outcome)
      modifies this
      ensures o == answer
      ensures answer.Pass? ==> closed
      ensures answer.Fail? ==> unchanged(this)
    {
      if answer.Fail? {
        return answer;
      }
      closed := true;
      o := Pass;
    }
  }

  /** What the holder keeps: its connection, `None` for Java's null, and the time of its last use. */
  datatype HolderState = HolderState(connection: Option<Connection>, lastAction: Int64)

  /** The last use lies more than `timeout` before `now`, computed in wrapping long arithmetic. */
  predicate Idle(s: HolderState, timeout: Int64, now: Int64) {
    AddLong(s.lastAction, timeout) < now
  }

  /**
    * One `getConnection` at `now`.  `closeAnswer` is the driver's reply to
    * closing an idle connection and `supplied` the supplier's answer to opening
    * one: an SQLException, Java's null, or a connection.  An idle connection is
    * closed and dropped; a missing one is opened; on success the time of last
    * use becomes `now`.  A failure propagates and leaves the time as it was.
    */
  function AfterGet(s: HolderState, timeout: Int64, now: Int64, closeAnswer: Outcome,
                    supplied: Result<Option<Connection>>): (out: (HolderState, Result<Connection>))
    ensures out.1.Ok? ==> out.0 == HolderState(Some(out.1.value), now)
    ensures out.1.Err? ==> out.0.lastAction == s.lastAction
    ensures !Idle(s, timeout, now) && s.connection.Some? ==>
              out == (s.(lastAction := now), Ok(s.connection.value))
    ensures Idle(s, timeout, now) && s.connection.Some? && closeAnswer.Fail? ==> out == (s, Err(closeAnswer.error))
    ensures (Idle(s, timeout, now) && closeAnswer.Pass?) || s.connection.None? ==>
              match supplied
              case Ok(Some(c)) => out == (HolderState(Some(c), now), Ok(c))
              case Ok(None) => out == (s.(connection := None), Err(SQLError(NULL_CONNECTION)))
              case Err(e) => out == (s.(connection := None), Err(e))
  {
    if Idle(s, timeout, now) && s.connection.Some? && closeAnswer.Fail? then (s, Err(closeAnswer.error))
    else
      var kept := if Idle(s, timeout, now) then None else s.connection;
      if kept.Some? then (HolderState(kept, now), Ok(kept.value))
      else
        match supplied
        case Err(e) => (HolderState(None, s.lastAction), Err(e))
        case Ok(None) => (HolderState(None, s.lastAction), Err(SQLError(NULL_CONNECTION)))
        case Ok(Some(c)) => (HolderState(Some(c), now), Ok(c))
  }

  /** `closeConnection`: a held connection is closed and dropped; without one nothing happens. */
  function AfterClose(s: HolderState, closeAnswer: Outcome): (out: (HolderState, Outcome))
    ensures s.connection.None? ==> out == (s, Pass)
    ensures s.connection.Some? ==> out.1 == closeAnswer
    ensures closeAnswer.Pass? ==> out == (s.(connection := None), Pass)
    ensures closeAnswer.Fail? ==> out.0 == s
  {
    if s.connection.None? then (s, Pass)
    else if closeAnswer.Fail? then (s, closeAnswer)
    else (s.(connection := None), Pass)
  }

  class BaseConnectionHandler {
    var connection: Option<Connection>
    const user: string
    const passwd: string
    const databaseName: string
    var timestampOfLastAction: Int64
    const connectionTimeout: Int64

    constructor (user1: string, passwd1: string, databaseName1: string)
      ensures connection.None? && timestampOfLastAction == LONG_MIN && connectionTimeout == CONNECTION_TIMEOUT
      ensures user == user1 && passwd == passwd1 && databaseName == databaseName1
    {
      connection := None;
      user := user1;
      passwd := passwd1;
      databaseName := databaseName1;
      timestampOfLastAction := LONG_MIN;
      connectionTimeout := CONNECTION_TIMEOUT;
    }

    function State(): HolderState
      reads this
    {
      HolderState(connection, timestampOfLastAction)
    }

    /**
      * Returns the held connection, first closing it when idle and opening a
      * new one when none is held.  `now` is the clock, `closeAnswer` the
      * driver's reply to a close, `supplied` the supplier's answer to an open.
      */
    method GetConnection(now: Int64, closeAnswer: Outcome, supplied: Result<Option<Connection>>)
      returns (r: Result<Connection>)
      modifies this, if connection.Some? then {connection.value} else {}
      ensures (State(), r) == AfterGet(old(State()), connectionTimeout, now, closeAnswer, supplied)
      ensures old(connection).Some? && Idle(old(State()), connectionTimeout, now) && closeAnswer.Pass? ==>
                old(connection).value.closed
    {
      var currentTime := now;
      if AddLong(timestampOfLastAction, connectionTimeout) < currentTime {
        var o := CloseConnection(closeAnswer);
        if o.Fail? {
          return Err(o.error);
        }
      }
      if connection.None? {
        var created := CreateConnection(supplied);
        if created.Fail? {
          return Err(created.error);
        }
      }
      timestampOfLastAction := currentTime;
      r := Ok(connection.value);
    }

    /** Opens a connection through the supplier; a null answer is an SQLException. */
    method CreateConnection(supplied: Result<Option<Connection>>) returns (o: Outcome)
      modifies this
      ensures timestampOfLastAction == old(timestampOfLastAction)
      ensures supplied.Err? ==> o == Fail(supplied.error) && connection == old(connection)
      ensures supplied == Ok(None) ==> o == Fail(SQLError(NULL_CONNECTION)) && connection.None?
      ensures supplied.Ok? && supplied.value.Some? ==> o == Pass && connection == supplied.value
    {
      if supplied.Err? {
        return Fail(supplied.error);
      }
      connection := supplied.value;
      if connection.None? {
        return Fail(SQLError(NULL_CONNECTION));
      }
      o := Pass;
    }

    /** Closes and drops a held connection; without one it does nothing. */
    method CloseConnection(closeAnswer: Outcome) returns (o: Outcome)
      modifies this, if connection.Some? then {connection.value} else {}
      ensures (State(), o) == AfterClose(old(State()), closeAnswer)
      ensures old(connection).Some? && closeAnswer.Pass? ==> old(connection).value.closed
      ensures old(connection).None? ==> unchanged(this)
    {
      if connection.Some? {
        var c := connection.value;
        o := c.Close(closeAnswer);
        if o.Fail? {
          return;
        }
        connection := None;
      } else {
        o := Pass;
      }
    }
  }

  /** Closing twice: the second close finds no connection and does nothing. */
  lemma CloseIdempotent(s: HolderState, first: Outcome, second: Outcome)
    requires first.Pass?
    ensures AfterClose(AfterClose(s, first).0, second) == (AfterClose(s, first).0, Pass)
  {
  }

  /** A new holder opens its connection on first use at any time, whatever the clock says. */
  lemma FirstUseOpens(now: Int64, closeAnswer: Outcome, c: Connection)
    ensures AfterGet(HolderState(None, LONG_MIN), CONNECTION_TIMEOUT, now, closeAnswer, Ok(Some(c))) ==
            (HolderState(Some(c), now), Ok(c))
  {
  }

  /**
    * Two uses less than the timeout apart share one connection, and the second
    * neither closes nor opens one, whatever the driver and supplier would answer.
    */
  lemma ReuseWithinTimeout(s: HolderState, now1: Int64, now2: Int64, close1: Outcome, close2: Outcome,
                           supplied1: Result<Option<Connection>>, supplied2: Result<Option<Connection>>)
    requires now1 <= now2 <= now1 + CONNECTION_TIMEOUT && now1 + CONNECTION_TIMEOUT <= LONG_MAX
    requires AfterGet(s, CONNECTION_TIMEOUT, now1, close1, supplied1).1.Ok?
    ensures var (s1, r1) := AfterGet(s, CONNECTION_TIMEOUT, now1, close1, supplied1);
            AfterGet(s1, CONNECTION_TIMEOUT, now2, close2, supplied2) == (s1.(lastAction := now2), r1)
  {
  }

  /** A use more than the timeout after the last one replaces the connection. */
  lemma IdleReplaced(s: HolderState, now: Int64, c: Connection)
    requires s.connection.Some? && s.lastAction + CONNECTION_TIMEOUT < now
    ensures AfterGet(s, CONNECTION_TIMEOUT, now, Pass, Ok(Some(c))) == (HolderState(Some(c), now), Ok(c))
  {
  }
}
