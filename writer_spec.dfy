/**
 * The response writer (LdapResponseMessageWriter) as a state machine over its one mutable
 * field, `upstream`, with the calls it makes recorded as logs: `notifyCanWrite`
 * registrations, `request(1)` calls, `connection.write` calls, `cancel` calls, and the
 * terminal signals given to the downstream subscriber. Each callback is a function from
 * the state before to the state after; the class in module ResponseWriter runs them in
 * place and is proved against these.
 */
module ResponseWriterSpec {
  import opened Wrappers

  /** A reactive-streams subscription, by identity. */
  type SubId = nat

  /** An LDAP response message handed to `onNext`, by identity. */
  type ResponseId = nat

  /** The throwable given to `onError`/`failed`: the `CancellationException` that
      `cancelled` creates, or any other error. */
  datatype Cause = Cancellation | Failure(code: nat)

  /** A terminal signal given to the downstream `Completable.Subscriber`. */
  datatype Terminal = Errored(cause: Cause) | Completed

  /** How a callback ends: normally, or with the NullPointerException that
      `upstream.cancel()` throws when `upstream` is null. */
  datatype Outcome = Returned | NullPointer

  datatype WriterState = WriterState(
    upstream: Option<SubId>,
    canWrite: seq<SubId>,
    requests: seq<SubId>,
    writes: seq<ResponseId>,
    cancels: seq<SubId>,
    downstream: seq<Terminal>)

  /** A freshly constructed writer: no subscription and nothing called yet. */
  function Initial(): (r: WriterState)
  {
    WriterState(None, [], [], [], [], [])
  }

  /** The callbacks the writer receives: its own `Subscriber` and `CompletionHandler`
      methods, and the two methods of a `WriteHandler` it registered. */
  datatype Event =
    | Subscribe(sub: SubId)
    | WritePossible
    | WriteHandlerError(cause: Cause)
    | Next(message: ResponseId)
    | WriteCompleted
    | WriteCancelled
    | WriteFailed(cause: Cause)
    | WriteUpdated
    | Error(cause: Cause)
    | Complete

  /** `onSubscribe(s)`: a second subscription is cancelled at once; the first is kept and
      a write handler is registered with the connection. */
  function OnSubscribe(w: WriterState, s: SubId): (r: WriterState)
  {
    if w.upstream.Some? then w.(cancels := w.cancels + [s])
    else w.(upstream := Some(s), canWrite := w.canWrite + [s])
  }

  /** `WriteHandler.onWritePossible` and `completed`: one unit of demand from the current
      upstream, when there is one. */
  function RequestOne(w: WriterState): (r: WriterState)
  {
    if w.upstream.Some? then w.(requests := w.requests + [w.upstream.value]) else w
  }

  /** `onNext(message)`: write the message, with this writer as its completion handler. */
  function OnNext(w: WriterState, m: ResponseId): (r: WriterState)
  {
    w.(writes := w.writes + [m])
  }

  /** `onError(error)`: cancel the upstream, forget it, and pass the error downstream. */
  function OnError(w: WriterState, e: Cause): (Outcome, WriterState)
  {
    if w.upstream.None? then (NullPointer, w)
    else (Returned, w.(upstream := None, cancels := w.cancels + [w.upstream.value],
                       downstream := w.downstream + [Errored(e)]))
  }

  /** `onComplete()`: cancel the upstream, forget it, and complete downstream. */
  function OnComplete(w: WriterState): (Outcome, WriterState)
  {
    if w.upstream.None? then (NullPointer, w)
    else (Returned, w.(upstream := None, cancels := w.cancels + [w.upstream.value],
                       downstream := w.downstream + [Completed]))
  }

  /** One callback. `cancelled()` is `failed(new CancellationException())`, `failed` and
      the write handler's `onError` are `onError`, `updated` does nothing. */
  function Step(w: WriterState, ev: Event): (Outcome, WriterState)
  {
    match ev
    case Subscribe(s) => (Returned, OnSubscribe(w, s))
    case WritePossible => (Returned, RequestOne(w))
    case WriteHandlerError(e) => OnError(w, e)
    case Next(m) => (Returned, OnNext(w, m))
    case WriteCompleted => (Returned, RequestOne(w))
    case WriteCancelled => OnError(w, Cancellation)
    case WriteFailed(e) => OnError(w, e)
    case WriteUpdated => (Returned, w)
    case Error(e) => OnError(w, e)
    case Complete => OnComplete(w)
  }

  /** The writer's state after a sequence of callbacks, one after another. A callback that
      throws leaves the state as it was. */
  function Replay(w: WriterState, evs: seq<Event>): (r: WriterState)
    decreases |evs|
  {
    if evs == [] then w else Step(Replay(w, evs[..|evs| - 1]), evs[|evs| - 1]).1
  }

  // ---------------------------------------------------------------------------------
  // One callback
  // ---------------------------------------------------------------------------------

  /** A subscription arriving while one is held is cancelled; nothing else changes. */
  lemma SubscribeWhileSubscribed(w: WriterState, s: SubId)
    requires w.upstream.Some?
    ensures var (o, r) := Step(w, Subscribe(s));
      && o == Returned
      && r.upstream == w.upstream
      && r.cancels == w.cancels + [s]
      && r == w.(cancels := r.cancels)
  {
  }

  /** The first subscription is stored and one write handler is registered for it; no
      demand is requested and nothing is cancelled, written or signalled. */
  lemma SubscribeFirst(w: WriterState, s: SubId)
    requires w.upstream.None?
    ensures var (o, r) := Step(w, Subscribe(s));
      && o == Returned
      && r.upstream == Some(s)
      && r.canWrite == w.canWrite + [s]
      && r.requests == w.requests && r.writes == w.writes
      && r.cancels == w.cancels && r.downstream == w.downstream
  {
  }

  /** Write-possible and write-completed each request exactly one unit from the held
      subscription, or nothing when there is none, and change nothing else. */
  lemma DemandOneAtATime(w: WriterState, ev: Event)
    requires ev == WritePossible || ev == WriteCompleted
    ensures var (o, r) := Step(w, ev);
      && o == Returned
      && (w.upstream.Some? ==> r.requests == w.requests + [w.upstream.value])
      && (w.upstream.None? ==> r.requests == w.requests)
      && r == w.(requests := r.requests)
  {
  }

  /** `onNext` writes exactly that message and requests no demand. */
  lemma NextWritesOnce(w: WriterState, m: ResponseId)
    ensures var (o, r) := Step(w, Next(m));
      && o == Returned
      && r.writes == w.writes + [m]
      && r.requests == w.requests
      && r == w.(writes := r.writes)
  {
  }

  /** `cancelled` is `failed` with a cancellation, `failed` and the write handler's
      `onError` are `onError`, and `updated` changes nothing. */
  lemma ErrorRoutes(w: WriterState, e: Cause)
    ensures Step(w, WriteCancelled) == Step(w, Error(Cancellation))
    ensures Step(w, WriteFailed(e)) == Step(w, Error(e))
    ensures Step(w, WriteHandlerError(e)) == Step(w, Error(e))
    ensures Step(w, WriteUpdated) == (Returned, w)
  {
  }

  /** A terminal signal with a subscription held cancels it, clears `upstream`, and gives
      downstream exactly the matching signal. */
  lemma TerminalWhileSubscribed(w: WriterState, ev: Event)
    requires w.upstream.Some? && (ev.Error? || ev == Complete)
    ensures var (o, r) := Step(w, ev);
      && o == Returned
      && r.upstream == None
      && r.cancels == w.cancels + [w.upstream.value]
      && r.downstream == w.downstream + [if ev == Complete then Completed else Errored(ev.cause)]
      && r.requests == w.requests && r.writes == w.writes && r.canWrite == w.canWrite
  {
  }

  /** Without a subscription, a terminal signal throws before anything happens: nothing is
      cancelled and downstream hears nothing. */
  lemma TerminalWithoutSubscription(w: WriterState, ev: Event)
    requires w.upstream.None?
    requires ev.Error? || ev.WriteFailed? || ev.WriteHandlerError? || ev == WriteCancelled || ev == Complete
    ensures Step(w, ev) == (NullPointer, w)
  {
  }

  /** After a terminal signal, demand callbacks request nothing and a second terminal
      signal never reaches downstream. */
  lemma NothingAfterTerminal(w: WriterState, t: Event, ev: Event)
    requires t.Error? || t == Complete
    requires ev == WritePossible || ev == WriteCompleted || ev.Error? || ev == Complete
    ensures var r := Step(w, t).1;
      && r.upstream == None
      && Step(r, ev).1.requests == r.requests
      && Step(r, ev).1.downstream == r.downstream
  {
  }

  // ---------------------------------------------------------------------------------
  // Sequences of callbacks
  // ---------------------------------------------------------------------------------

  /** Each registered write handler belongs to one subscription, which is either still
      held (the last one registered) or has been terminated exactly once downstream;
      every demand and every terminal went to a subscription that was accepted. */
  ghost predicate Inv(w: WriterState)
  {
    && |w.downstream| + (if w.upstream.Some? then 1 else 0) == |w.canWrite|
    && (w.upstream.Some? ==> w.canWrite != [] && w.upstream.value == w.canWrite[|w.canWrite| - 1])
    && (forall i :: 0 <= i < |w.requests| ==> w.requests[i] in w.canWrite)
  }

  lemma InitialInv()
    ensures Inv(Initial())
  {
  }

  lemma StepKeepsInv(w: WriterState, ev: Event)
    requires Inv(w)
    ensures Inv(Step(w, ev).1)
  {
    var r := Step(w, ev).1;
    if ev.Subscribe? && w.upstream.None? {
      assert forall x :: x in w.canWrite ==> x in r.canWrite;
    }
  }

  lemma {:induction false} ReplayKeepsInv(w: WriterState, evs: seq<Event>)
    requires Inv(w)
    ensures Inv(Replay(w, evs))
    decreases |evs|
  {
    if evs != [] {
      ReplayKeepsInv(w, evs[..|evs| - 1]);
      StepKeepsInv(Replay(w, evs[..|evs| - 1]), evs[|evs| - 1]);
    }
  }

  /** The number of `onSubscribe` calls in a sequence of callbacks. */
  function Subscriptions(evs: seq<Event>): (n: nat)
    ensures n <= |evs|
    decreases |evs|
  {
    if evs == [] then 0
    else Subscriptions(evs[..|evs| - 1]) + (if evs[|evs| - 1].Subscribe? then 1 else 0)
  }

  /** The number of write-possible and write-completed callbacks in a sequence. */
  function DemandEvents(evs: seq<Event>): (n: nat)
    ensures n <= |evs|
    decreases |evs|
  {
    if evs == [] then 0
    else DemandEvents(evs[..|evs| - 1]) + (if evs[|evs| - 1] == WritePossible || evs[|evs| - 1] == WriteCompleted then 1 else 0)
  }

  /** Only `onSubscribe` registers write handlers, one per call at most. */
  lemma {:induction false} ReplayRegistrations(w: WriterState, evs: seq<Event>)
    ensures |Replay(w, evs).canWrite| <= |w.canWrite| + Subscriptions(evs)
    decreases |evs|
  {
    if evs != [] {
      ReplayRegistrations(w, evs[..|evs| - 1]);
    }
  }

  /** Only write-possible and write-completed request demand, one unit per call at most;
      the request and downstream logs only grow. */
  lemma {:induction false} ReplayDemand(w: WriterState, evs: seq<Event>)
    ensures |Replay(w, evs).requests| <= |w.requests| + DemandEvents(evs)
    ensures w.requests <= Replay(w, evs).requests
    decreases |evs|
  {
    if evs != [] {
      ReplayDemand(w, evs[..|evs| - 1]);
    }
  }

  /** From a fresh writer, downstream receives no more terminal signals than the writer
      accepted subscriptions, so at most one when it is subscribed once. */
  lemma TerminalsPerSubscription(evs: seq<Event>)
    ensures |Replay(Initial(), evs).downstream| <= Subscriptions(evs)
    ensures Subscriptions(evs) <= 1 ==> |Replay(Initial(), evs).downstream| <= 1
  {
    InitialInv();
    ReplayKeepsInv(Initial(), evs);
    ReplayRegistrations(Initial(), evs);
  }

  /** Without a held subscription and without new ones, no callback requests demand,
      cancels anything or reaches downstream. */
  lemma {:induction false} QuietWhenUnsubscribed(w: WriterState, evs: seq<Event>)
    requires w.upstream.None?
    requires Subscriptions(evs) == 0
    ensures var r := Replay(w, evs);
      && r.upstream == None
      && r.requests == w.requests && r.cancels == w.cancels && r.downstream == w.downstream
    decreases |evs|
  {
    if evs != [] {
      QuietWhenUnsubscribed(w, evs[..|evs| - 1]);
    }
  }
  // ---------------------------------------------------------------------------------
  // One write at a time
  // ---------------------------------------------------------------------------------

  /** The number of callbacks that fire a registered write handler: write-possible or the
      handler's `onError`. */
  function Fired(evs: seq<Event>): (n: nat)
    ensures n <= |evs|
    decreases |evs|
  {
    if evs == [] then 0
    else Fired(evs[..|evs| - 1]) + (if evs[|evs| - 1].WritePossible? || evs[|evs| - 1].WriteHandlerError? then 1 else 0)
  }

  /** The number of `onNext` callbacks. */
  function Delivered(evs: seq<Event>): (n: nat)
    ensures n <= |evs|
    decreases |evs|
  {
    if evs == [] then 0
    else Delivered(evs[..|evs| - 1]) + (if evs[|evs| - 1].Next? then 1 else 0)
  }

  /** The number of callbacks that end a write: completed, cancelled or failed. */
  function Finished(evs: seq<Event>): (n: nat)
    ensures n <= |evs|
    decreases |evs|
  {
    if evs == [] then 0
    else Finished(evs[..|evs| - 1])
         + (if evs[|evs| - 1].WriteCompleted? || evs[|evs| - 1].WriteCancelled? || evs[|evs| - 1].WriteFailed? then 1 else 0)
  }

  /** Write handlers a fresh writer registered with the connection that have not fired yet. */
  ghost function Handlers(evs: seq<Event>): int
  {
    |Replay(Initial(), evs).canWrite| - Fired(evs)
  }

  /** Units of demand a fresh writer requested that `onNext` has not delivered yet. */
  ghost function Demand(evs: seq<Event>): int
  {
    |Replay(Initial(), evs).requests| - Delivered(evs)
  }

  /** Writes a fresh writer issued whose completion handler has not been called yet. */
  ghost function InFlight(evs: seq<Event>): int
  {
    |Replay(Initial(), evs).writes| - Finished(evs)
  }

  /** The callbacks keep the protocols the writer relies on: a registered write handler
      fires once (write-possible or its `onError`), the subscription calls `onNext` only
      against demand it was given, and a write's completion handler is called once
      (completed, cancelled or failed). Upstream and downstream terminal signals and
      `updated` may come at any time. */
  ghost predicate Respects(evs: seq<Event>)
    decreases |evs|
  {
    evs == [] ||
    (var pre, ev := evs[..|evs| - 1], evs[|evs| - 1];
     && Respects(pre)
     && (ev.WritePossible? || ev.WriteHandlerError? ==> Handlers(pre) > 0)
     && (ev.Next? ==> Demand(pre) > 0)
     && (ev.WriteCompleted? || ev.WriteCancelled? || ev.WriteFailed? ==> InFlight(pre) > 0))
  }

  /** Against such an environment, unfired write handlers, undelivered demand and writes
      in flight together never outnumber the subscriptions the writer accepted: the
      writer asks for the next message only after the previous write completed. With a
      single `onSubscribe`, at most one of them is outstanding at any time, so at most
      one write is in flight on the connection. */
  lemma {:induction false} SingleInFlight(evs: seq<Event>)
    requires Respects(evs)
    ensures 0 <= Handlers(evs) && 0 <= Demand(evs) && 0 <= InFlight(evs)
    ensures Handlers(evs) + Demand(evs) + InFlight(evs) <= |Replay(Initial(), evs).canWrite|
    ensures Subscriptions(evs) <= 1 ==> Handlers(evs) + Demand(evs) + InFlight(evs) <= 1
    ensures Subscriptions(evs) <= 1 ==> InFlight(evs) <= 1
    decreases |evs|
  {
    if evs != [] {
      SingleInFlight(evs[..|evs| - 1]);
    }
    ReplayRegistrations(Initial(), evs);
  }
  /** One callback appended: how the replay, the environment's conditions and the counts
      extend. */
  lemma Snoc(pre: seq<Event>, ev: Event)
    ensures var evs := pre + [ev];
      && Replay(Initial(), evs) == Step(Replay(Initial(), pre), ev).1
      && (Respects(evs) <==>
           && Respects(pre)
           && (ev.WritePossible? || ev.WriteHandlerError? ==> Handlers(pre) > 0)
           && (ev.Next? ==> Demand(pre) > 0)
           && (ev.WriteCompleted? || ev.WriteCancelled? || ev.WriteFailed? ==> InFlight(pre) > 0))
      && Subscriptions(evs) == Subscriptions(pre) + (if ev.Subscribe? then 1 else 0)
      && Fired(evs) == Fired(pre) + (if ev.WritePossible? || ev.WriteHandlerError? then 1 else 0)
      && Delivered(evs) == Delivered(pre) + (if ev.Next? then 1 else 0)
      && Finished(evs) == Finished(pre) + (if ev.WriteCompleted? || ev.WriteCancelled? || ev.WriteFailed? then 1 else 0)
  {
    assert (pre + [ev])[..|pre|] == pre;
  }

  /** The single-subscription hypothesis is needed: `onSubscribe` after a terminal signal
      is accepted again, since `upstream` is null, and registers a second write handler
      while the first subscription's write may still be in flight. */
  lemma ResubscribeAllowsTwoWrites()
    ensures var evs := [Subscribe(0), WritePossible, Next(0), Complete, Subscribe(1), WritePossible, Next(1)];
      Respects(evs) && Subscriptions(evs) == 2 && InFlight(evs) == 2
  {
    var e0: seq<Event> := [];
    var e1 := e0 + [Subscribe(0)];
    Snoc(e0, Subscribe(0));
    var e2 := e1 + [WritePossible];
    Snoc(e1, WritePossible);
    var e3 := e2 + [Next(0)];
    Snoc(e2, Next(0));
    var e4 := e3 + [Complete];
    Snoc(e3, Complete);
    var e5 := e4 + [Subscribe(1)];
    Snoc(e4, Subscribe(1));
    var e6 := e5 + [WritePossible];
    Snoc(e5, WritePossible);
    var e7 := e6 + [Next(1)];
    Snoc(e6, Next(1));
    assert e7 == [Subscribe(0), WritePossible, Next(0), Complete, Subscribe(1), WritePossible, Next(1)];
  }


}
