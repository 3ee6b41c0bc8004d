/**
 * The read side of one LDAP client connection, as the request handler sees it.
 *
 * The ASN.1 reader of a connection is abstracted to the sequence of elements it has
 * already buffered (`elementAvailable` is "the buffer is not empty", `readMessage` takes
 * its head), and the socket to a finite script of `processDataRead` outcomes.
 * `processLDAPMessage` is abstracted to the `accepted` flag each request carries.
 */
module LdapConnection {

  /** A connection is named by its index in the handler's connection table. */
  type ConnId = nat

  /** An element in the ASN.1 reader: a request whose processing accepts or rejects it,
      or bytes that `readMessage` cannot decode (DecodeException / LDAPException). */
  datatype Message = Request(id: nat, accepted: bool) | Malformed

  /** One scripted `processDataRead` call: the int it returns together with the elements
      the bytes it read complete, or the exception it throws. */
  datatype ReadOutcome = Read(count: int, decoded: seq<Message>) | ReadFailure

  /** What a `processDataRead` call hands back to its caller. */
  datatype ReadResult = Count(n: int) | Failed

  /** `registrable` is false when configuring or registering the socket channel throws. */
  datatype Connection = Connection(buffered: seq<Message>, script: seq<ReadOutcome>, registrable: bool)

  /** Why a connection is disconnected (org.opends.server.types.DisconnectReason). */
  datatype Reason = ProtocolError | ServerError | ServerShutdown

  /** Elements the scripted reads will still deliver, in arrival order. Bytes reported
      with a non-positive count deliver nothing. */
  function Decoded(script: seq<ReadOutcome>): (r: seq<Message>)
  {
    if script == [] then []
    else
      (match script[0]
       case Read(n, d) => if n > 0 then d else []
       case ReadFailure => [])
      + Decoded(script[1..])
  }

  /** Everything the connection will still yield to `readMessage`, in order. */
  function Stream(c: Connection): (r: seq<Message>)
  {
    c.buffered + Decoded(c.script)
  }

  /** `processDataRead`: consume one scripted read; an exhausted script reads nothing. */
  function ReadData(c: Connection): (r: (ReadResult, Connection))
    ensures c.script == [] ==> r == (Count(0), c)
    ensures c.script != [] ==> r.1.script == c.script[1..] && r.1.registrable == c.registrable
  {
    if c.script == [] then (Count(0), c)
    else match c.script[0]
      case ReadFailure => (Failed, c.(script := c.script[1..]))
      case Read(n, d) =>
        (Count(n), c.(buffered := c.buffered + (if n > 0 then d else []), script := c.script[1..]))
  }

  /** Reading moves elements from the socket into the reader without losing any. */
  lemma ReadDataKeepsStream(c: Connection)
    ensures Stream(ReadData(c).1) == Stream(c)
  {
    if c.script != [] {
      assert Decoded(c.script) == (match c.script[0] case Read(n, d) => if n > 0 then d else [] case ReadFailure => []) + Decoded(c.script[1..]);
    }
  }

  /** The outcome of one connection's turn in the ready-queue drain: the connection
      afterwards, the messages passed to `processLDAPMessage`, whether the connection
      was appended to the ready queue again, and whether an exception ended the turn. */
  datatype TurnResult = TurnResult(conn: Connection, calls: seq<Message>, requeue: bool, failure: bool)

  /** Reference definition of the `while (true)` loop of a turn, from a state in which
      `processed` says whether a message has already been dispatched in this turn. */
  function TurnFrom(c: Connection, processed: bool): (r: TurnResult)
    decreases |c.script|, |c.buffered|
  {
    if |c.buffered| > 0 then
      if processed then TurnResult(c, [], true, false)
      else
        var m := c.buffered[0];
        var rest := c.(buffered := c.buffered[1..]);
        match m
        case Malformed => TurnResult(rest, [], false, true)
        case Request(_, accepted) =>
          if accepted then
            var t := TurnFrom(rest, true);
            t.(calls := [m] + t.calls)
          else TurnResult(rest, [m], false, false)
    else
      var read := ReadData(c);
      if read.0.Failed? then TurnResult(read.1, [], false, true)
      else if read.0.n <= 0 then TurnResult(read.1, [], false, false)
      else TurnFrom(read.1, processed)
  }

  /** A whole turn of a connection polled from the ready queue. */
  function Turn(c: Connection): (r: TurnResult)
  {
    TurnFrom(c, false)
  }

  /** Once a message has been dispatched, the rest of the turn dispatches nothing; it
      ends with a requeue exactly when a further element is available. */
  lemma {:induction false} TurnAfterDispatch(c: Connection)
    ensures TurnFrom(c, true).calls == []
    ensures Stream(c) == Stream(TurnFrom(c, true).conn)
    ensures TurnFrom(c, true).requeue ==> !TurnFrom(c, true).failure && |TurnFrom(c, true).conn.buffered| > 0
    ensures !TurnFrom(c, true).requeue ==> TurnFrom(c, true).conn.buffered == []
    decreases |c.script|, |c.buffered|
  {
    if |c.buffered| == 0 {
      var read := ReadData(c);
      ReadDataKeepsStream(c);
      if read.0.Count? && read.0.n > 0 {
        TurnAfterDispatch(read.1);
      }
    }
  }

  /** In one turn at most one message reaches `processLDAPMessage`; a decode failure
      never does; after an accepted message the connection is requeued exactly when a
      further element is buffered; a rejected message or an exception ends the turn
      without requeue; a turn that ends with no requeue, no exception and no rejected
      message leaves nothing buffered. */
  lemma {:induction false} TurnShape(c: Connection)
    ensures var r := Turn(c);
      && |r.calls| <= 1
      && (forall m :: m in r.calls ==> m.Request?)
      && (r.requeue ==> |r.calls| == 1 && r.calls[0].accepted && !r.failure && |r.conn.buffered| > 0)
      && (|r.calls| == 1 && !r.calls[0].accepted ==> !r.requeue && !r.failure)
      && (r.failure ==> !r.requeue)
      && (|r.calls| == 1 && r.calls[0].accepted ==> (r.requeue <==> |r.conn.buffered| > 0))
      && (!r.requeue && !r.failure && (forall m :: m in r.calls ==> m.accepted) ==> r.conn.buffered == [])
    decreases |c.script|, |c.buffered|
  {
    if |c.buffered| > 0 {
      var m := c.buffered[0];
      if m.Request? && m.accepted {
        TurnAfterDispatch(c.(buffered := c.buffered[1..]));
      }
    } else {
      var read := ReadData(c);
      if read.0.Count? && read.0.n > 0 {
        TurnShape(read.1);
      }
    }
  }

  /** A turn neither skips nor reorders the connection's messages: what it dispatches is
      the head of the connection's stream, and the stream afterwards is the rest (minus
      the undecodable element when decoding failed). */
  lemma {:induction false} TurnKeepsOrder(c: Connection)
    ensures var r := Turn(c);
      || Stream(c) == r.calls + Stream(r.conn)
      || (r.failure && r.calls == [] && Stream(c) == [Malformed] + Stream(r.conn))
    decreases |c.script|, |c.buffered|
  {
    if |c.buffered| > 0 {
      var m := c.buffered[0];
      var rest := c.(buffered := c.buffered[1..]);
      assert Stream(c) == [m] + Stream(rest);
      if m.Request? && m.accepted {
        TurnAfterDispatch(rest);
        assert Turn(c).calls == [m];
      }
    } else {
      var read := ReadData(c);
      ReadDataKeepsStream(c);
      if read.0.Count? && read.0.n > 0 {
        TurnKeepsOrder(read.1);
      }
    }
  }

  /** A turn consumes the stream: what it dispatches is taken from what was there. */
  lemma TurnConsumes(c: Connection)
    ensures |Stream(Turn(c).conn)| + |Turn(c).calls| <= |Stream(c)|
    ensures Turn(c).requeue ==> |Stream(Turn(c).conn)| < |Stream(c)|
  {
    TurnKeepsOrder(c);
    TurnShape(c);
  }

  /** When no element is available and the read reports no data (0 or end of stream),
      the turn ends at once: nothing dispatched, no requeue, no disconnect. */
  lemma TurnEndsOnEmptyRead(c: Connection)
    requires c.buffered == []
    requires c.script == [] || (c.script[0].Read? && c.script[0].count <= 0)
    ensures Turn(c).calls == [] && !Turn(c).requeue && !Turn(c).failure
  {
  }

  /** The turn loop as the handler runs it: `elementAvailable`, `readMessage`,
      `processLDAPMessage` and `processDataRead`, with the `ldapMessageProcessed` flag. */
  method RunTurn(conn: Connection) returns (r: TurnResult)
    ensures r == Turn(conn)
  {
    var c := conn;
    var processed := false;
    var calls: seq<Message> := [];
    while true
      invariant processed <==> calls != []
      invariant Turn(conn) == Resume(calls, TurnFrom(c, processed))
      decreases |c.script|, |c.buffered|
    {
      ghost var before := c;
      if |c.buffered| > 0 {
        if !processed {
          var m := c.buffered[0];
          c := c.(buffered := c.buffered[1..]);
          if m.Malformed? {
            r := TurnResult(c, calls, false, true);
            ResumeEmpty(calls, TurnFrom(before, processed));
            return;
          }
          calls := calls + [m];
          assert calls == [m];
          if m.accepted {
            processed := true;
            ghost var t := TurnFrom(c, true);
            assert TurnFrom(before, false) == t.(calls := [m] + t.calls);
            ResumeFirst(m, t);
          } else {
            r := TurnResult(c, calls, false, false);
            ResumeFirst(m, TurnResult(c, [], false, false));
            return;
          }
        } else {
          r := TurnResult(c, calls, true, false);
          ResumeEmpty(calls, TurnFrom(before, processed));
          return;
        }
      } else {
        var read := ReadData(c);
        c := read.1;
        if read.0.Failed? {
          r := TurnResult(c, calls, false, true);
          ResumeEmpty(calls, TurnFrom(before, processed));
          return;
        }
        if read.0.n <= 0 {
          r := TurnResult(c, calls, false, false);
          ResumeEmpty(calls, TurnFrom(before, processed));
          return;
        }
        assert TurnFrom(before, processed) == TurnFrom(c, processed);
      }
    }
  }

  /** A turn's outcome with `calls` dispatched before it. */
  function Resume(calls: seq<Message>, t: TurnResult): (r: TurnResult)
  {
    t.(calls := calls + t.calls)
  }

  lemma ResumeEmpty(calls: seq<Message>, t: TurnResult)
    requires t.calls == []
    ensures Resume(calls, t) == t.(calls := calls)
  {
    assert calls + [] == calls;
  }

  lemma ResumeFirst(m: Message, t: TurnResult)
    ensures Resume([], t.(calls := [m] + t.calls)) == Resume([m], t)
  {
    assert [] + ([m] + t.calls) == [m] + t.calls;
  }
}
