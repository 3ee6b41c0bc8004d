/**
 * LDAPRequestHandler as an object: the loop's fields are updated in place, step by step,
 * the way the handler's thread does it. Every method is proved to leave the object in
 * the state the corresponding function of RequestHandlerSpec computes from the state
 * before, so the properties proved there hold for the running handler.
 */
module RequestHandler {
  import opened Wrappers
  import opened LdapConnection
  import Spec = RequestHandlerSpec

  class RequestHandler {
    /** `shutdownRequested` */
    var shutdownRequested: bool
    /** `pendingConnections`, filled by `registerClient` */
    var pending: seq<ConnId>
    /** `readyConnections`, the FIFO the drain polls */
    var ready: seq<ConnId>
    /** The read side of every client connection, indexed by connection */
    var conns: seq<Connection>
    /** The selector's keys, indexed by key */
    var selector: seq<Spec.Key>
    /** `keys`, the snapshot `getClientConnections` reads */
    var keys: seq<Spec.KeyId>
    /** The `processLDAPMessage` calls made so far */
    var dispatched: seq<Spec.Dispatch>
    /** The `disconnect` calls made so far */
    var disconnects: seq<Spec.Disconnect>

    /** The object's fields as a value of the specification. */
    function Model(): Spec.State
      reads this
    {
      Spec.State(shutdownRequested, pending, ready, conns, selector, keys, dispatched, disconnects)
    }

    ghost predicate Valid()
      reads this
    {
      Spec.WellFormed(Model())
    }

    /** A handler with an empty selector and empty queues, over the given connections. */
    constructor(cs: seq<Connection>)
      ensures Valid()
      ensures Model() == Spec.State(false, [], [], cs, [], [], [], [])
    {
      shutdownRequested := false;
      pending := [];
      ready := [];
      conns := cs;
      selector := [];
      keys := [];
      dispatched := [];
      disconnects := [];
    }

    /** `registerClient` */
    method RegisterClient(c: ConnId) returns (ok: bool)
      requires Valid() && c < |conns|
      modifies this
      ensures (Model(), ok) == Spec.RegisterClient(old(Model()), c)
      ensures Valid()
    {
      if shutdownRequested {
        disconnects := disconnects + [Spec.Disconnect(c, ServerShutdown)];
        return false;
      }
      pending := pending + [c];
      return true;
    }

    /** `processServerShutdown` */
    method ProcessServerShutdown()
      requires Valid()
      modifies this
      ensures Valid()
      ensures Model() == Spec.ProcessServerShutdown(old(Model()))
    {
      shutdownRequested := true;
    }

    /** The ready-queue drain: poll connections until the queue is empty, running one
        turn for each. */
    method DrainReadyConnections()
      requires Valid()
      modifies this
      ensures Valid()
      ensures Model() == Spec.DrainReady(old(Model()))
    {
      while ready != []
        invariant Valid()
        invariant Spec.DrainReady(Model()) == Spec.DrainReady(old(Model()))
        decreases Spec.Potential(conns) + |ready|
      {
        Spec.DrainStepDecreases(Model());
        ServeNext();
      }
    }

    /** One poll of the ready queue: the head's turn, which may put it back at the end
        or disconnect it. */
    method ServeNext()
      requires Valid() && ready != []
      modifies this
      ensures Valid()
      ensures Model() == Spec.DrainStep(old(Model()))
    {
      var c := ready[0];
      ready := ready[1..];
      var t := RunTurn(conns[c]);
      conns := conns[c := t.conn];
      dispatched := dispatched + Spec.Tag(c, t.calls);
      if t.requeue {
        ready := ready + [c];
      }
      if t.failure {
        disconnects := disconnects + [Spec.Disconnect(c, ProtocolError)];
      }
    }

    /** The pending swap and the registration of every connection it took. */
    method RegisterPendingConnections()
      requires Valid()
      modifies this
      ensures Valid()
      ensures Model() == Spec.RegisterPending(old(Model()))
    {
      Spec.RegisterPendingWellFormed(Model());
      if pending != [] {
        var tmp := pending;
        pending := [];
        RegisterEach(tmp);
      }
    }

    /** `for (LDAPClientConnection c : tmp)`: configure and register each channel, or
        disconnect the connection with SERVER_ERROR when that throws. */
    method RegisterEach(tmp: seq<ConnId>)
      requires Spec.AllIn(tmp, |conns|)
      modifies this
      ensures conns == old(conns)
      ensures selector == old(selector) + Spec.NewKeys(Spec.Registrable(conns, tmp))
      ensures disconnects == old(disconnects) + Spec.ServerErrors(Spec.Refused(conns, tmp))
      ensures Model() == old(Model()).(selector := selector, disconnects := disconnects)
    {
      for i := 0 to |tmp|
        invariant conns == old(conns) && pending == old(pending) && ready == old(ready)
        invariant shutdownRequested == old(shutdownRequested) && keys == old(keys)
        invariant dispatched == old(dispatched)
        invariant Spec.AllIn(tmp[..i], |conns|)
        invariant selector == old(selector) + Spec.NewKeys(Spec.Registrable(conns, tmp[..i]))
        invariant disconnects == old(disconnects) + Spec.ServerErrors(Spec.Refused(conns, tmp[..i]))
      {
        assert tmp[..i + 1] == tmp[..i] + [tmp[i]];
        RegisterOne(tmp[i], tmp[..i], old(selector), old(disconnects));
      }
      assert tmp[..|tmp|] == tmp;
    }

    /** The body of that loop for connection `c`, after the connections `done` took
        their turn starting from selector `sel` and disconnect log `dis`. */
    method RegisterOne(c: ConnId, ghost done: seq<ConnId>, ghost sel: seq<Spec.Key>, ghost dis: seq<Spec.Disconnect>)
      requires Spec.AllIn(done, |conns|) && c < |conns|
      requires selector == sel + Spec.NewKeys(Spec.Registrable(conns, done))
      requires disconnects == dis + Spec.ServerErrors(Spec.Refused(conns, done))
      modifies this
      ensures conns == old(conns) && pending == old(pending) && ready == old(ready)
      ensures shutdownRequested == old(shutdownRequested) && keys == old(keys)
      ensures dispatched == old(dispatched)
      ensures Spec.AllIn(done + [c], |conns|)
      ensures selector == sel + Spec.NewKeys(Spec.Registrable(conns, done + [c]))
      ensures disconnects == dis + Spec.ServerErrors(Spec.Refused(conns, done + [c]))
    {
      Spec.RegisterSnoc(conns, done, c, sel, dis);
      if conns[c].registrable {
        selector := selector + [Spec.Key(Some(c), true)];
      } else {
        disconnects := disconnects + [Spec.Disconnect(c, ServerError)];
      }
    }

    /** `keys = selector.keys().toArray(...)` */
    method PublishKeys()
      requires Valid()
      modifies this
      ensures Valid()
      ensures Model() == Spec.Publish(old(Model()))
    {
      keys := seq(|selector|, i => i);
    }

    /** One selected key: the body of the iteration, then its `finally`, which releases
        the attachment of a key that is no longer valid. */
    method HandleKey(sel: Spec.Selection)
      requires Valid()
      modifies this
      ensures Valid()
      ensures Model() == Spec.HandleKey(old(Model()), sel)
    {
      var i := sel.key;
      if i >= |selector| {
        return;
      }
      ReadKey(sel);
      if !selector[i].valid {
        selector := selector[i := selector[i].(attachment := None)];
      }
    }

    /** The `try` part for one selected key: a cancelled key throws from `isReadable`; a
        readable key's connection reads, and the key is cancelled on end of stream or on
        an exception (which also disconnects the connection with SERVER_ERROR). */
    method ReadKey(sel: Spec.Selection)
      requires Valid() && sel.key < |selector|
      modifies this
      ensures Model() == Spec.KeyBody(old(Model()), sel)
    {
      var i := sel.key;
      var k := selector[i];
      if !k.valid || !sel.readable {
        return;
      }
      match k.attachment {
        case None =>
          selector := selector[i := k.(valid := false)];
        case Some(c) =>
          var read := ReadData(conns[c]);
          conns := conns[c := read.1];
          match read.0 {
            case Failed =>
              selector := selector[i := k.(valid := false)];
              disconnects := disconnects + [Spec.Disconnect(c, ServerError)];
            case Count(n) =>
              if n < 0 {
                selector := selector[i := k.(valid := false)];
              }
              if n > 0 {
                ready := ready + [c];
              }
          }
      }
    }

    /** `while (iterator.hasNext())` over the keys the select reported. */
    method HandleSelectedKeys(sels: seq<Spec.Selection>)
      requires Valid()
      modifies this
      ensures Valid()
      ensures Model() == Spec.HandleSelected(old(Model()), sels)
    {
      for j := 0 to |sels|
        invariant Valid()
        invariant Model() == Spec.HandleSelected(old(Model()), sels[..j])
      {
        assert sels[..j + 1][..j] == sels[..j];
        HandleKey(sels[j]);
      }
      assert sels[..|sels|] == sels;
    }

    /** `getClientConnections`: the non-null attachments of the published snapshot. */
    method GetClientConnections() returns (cs: seq<ConnId>)
      requires Valid()
      ensures cs == Spec.ClientConnections(Model(), |keys|)
      ensures |cs| <= |keys|
      ensures forall c :: c in cs <==>
        exists i :: 0 <= i < |keys| && selector[keys[i]].attachment == Some(c)
    {
      cs := [];
      for j := 0 to |keys|
        invariant cs == Spec.ClientConnections(Model(), j)
      {
        var a := selector[keys[j]].attachment;
        if a.Some? {
          cs := cs + [a.value];
        }
      }
      Spec.ClientConnectionsFilter(Model(), |keys|);
    }

    /** After the loop: close and cancel every key, disconnecting its connection, then
        disconnect every connection still pending. */
    method ShutdownDrain()
      modifies this
      ensures Model() == Spec.ShutdownDrain(old(Model()))
    {
      for i := 0 to |selector|
        invariant |selector| == |old(selector)| && pending == old(pending)
        invariant Model() == Spec.CloseKeys(old(Model()), i)
      {
        var k := selector[i];
        selector := selector[i := k.(valid := false)];
        if k.attachment.Some? {
          disconnects := disconnects + [Spec.Disconnect(k.attachment.value, ServerShutdown)];
        }
      }
      DisconnectPending();
    }

    /** `for (LDAPClientConnection c : pendingConnections)` at shutdown. */
    method DisconnectPending()
      modifies this
      ensures Model() == old(Model()).(disconnects := old(disconnects) + Spec.Notices(pending))
    {
      for j := 0 to |pending|
        invariant pending == old(pending)
        invariant Model() == old(Model()).(disconnects := old(disconnects) + Spec.Notices(pending[..j]))
      {
        assert pending[..j + 1] == pending[..j] + [pending[j]];
        Spec.NoticesAppend(pending[..j], [pending[j]]);
        disconnects := disconnects + [Spec.Disconnect(pending[j], ServerShutdown)];
      }
      assert pending[..|pending|] == pending;
    }

    /** `run`: the loop until shutdown is requested, then the shutdown drain. The polls
        say what happens during each select. */
    method Run(polls: seq<Spec.Poll>)
      requires Valid() && Spec.ArrivalsIn(polls, |conns|) && Spec.EventuallyShutdown(Model(), polls)
      modifies this
      ensures Model() == Spec.Run(old(Model()), polls)
    {
      var rest := polls;
      while !shutdownRequested
        invariant Valid() && Spec.ArrivalsIn(rest, |conns|) && Spec.EventuallyShutdown(Model(), rest)
        invariant Spec.RunLoop(Model(), rest) == Spec.RunLoop(old(Model()), polls)
        decreases |rest|
      {
        Spec.RunLoopStep(Model(), rest);
        var p := rest[0];
        rest := rest[1..];
        UpToSelect(p);
        if shutdownRequested {
          break;
        }
        HandleSelectedKeys(p.selected);
      }
      ShutdownDrain();
    }

    /** One pass of the loop up to the `shutdownRequested` check after the select. */
    method UpToSelect(p: Spec.Poll)
      requires Valid() && Spec.AllIn(p.arrivals, |conns|)
      modifies this
      ensures Model() == Spec.BeforeSelection(old(Model()), p)
      ensures Valid()
    {
      DrainReadyConnections();
      RegisterPendingConnections();
      PublishKeys();
      AcceptArrivals(p.arrivals);
      if p.shutdown {
        ProcessServerShutdown();
      }
    }

    /** `registerClient` calls made by the accepting thread while the loop is in select. */
    method AcceptArrivals(cs: seq<ConnId>)
      requires Valid() && Spec.AllIn(cs, |conns|)
      modifies this
      ensures Valid()
      ensures Model() == Spec.RegisterArrivals(old(Model()), cs)
    {
      for j := 0 to |cs|
        invariant Valid() && |conns| == |old(conns)|
        invariant Model() == Spec.RegisterArrivals(old(Model()), cs[..j])
      {
        assert cs[..j + 1][..j] == cs[..j];
        var _ := RegisterClient(cs[j]);
      }
      assert cs[..|cs|] == cs;
    }
  }
}
