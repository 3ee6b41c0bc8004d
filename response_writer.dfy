/**
 * LdapResponseMessageWriter as an object: the `upstream` field is updated in place by
 * each callback, and the calls the writer makes are appended to logs. Every method is
 * proved to leave the object in the state the corresponding function of
 * ResponseWriterSpec computes, and to end the same way (normally or with the
 * NullPointerException of `upstream.cancel()`).
 */
module ResponseWriter {
  import opened Wrappers
  import opened ResponseWriterSpec

  class ResponseWriter {
    /** `upstream` */
    var upstream: Option<SubId>
    /** `connection.notifyCanWrite` registrations, by the subscription they serve */
    var canWrite: seq<SubId>
    /** `request(1)` calls, by subscription */
    var requests: seq<SubId>
    /** `connection.write` calls */
    var writes: seq<ResponseId>
    /** `cancel` calls, by subscription */
    var cancels: seq<SubId>
    /** `downstream.onError` and `downstream.onComplete` calls */
    var downstream: seq<Terminal>

    function Model(): WriterState
      reads this
    {
      WriterState(upstream, canWrite, requests, writes, cancels, downstream)
    }

    constructor()
      ensures Model() == Initial()
    {
      upstream := None;
      canWrite := [];
      requests := [];
      writes := [];
      cancels := [];
      downstream := [];
    }

    /** `onSubscribe` */
    method OnSubscribe(s: SubId)
      modifies this
      ensures Model() == ResponseWriterSpec.OnSubscribe(old(Model()), s)
    {
      if upstream != None {
        cancels := cancels + [s];
        return;
      }
      upstream := Some(s);
      canWrite := canWrite + [s];
    }

    /** `onWritePossible` of the registered write handler */
    method OnWritePossible()
      modifies this
      ensures Model() == RequestOne(old(Model()))
    {
      var sub := upstream;
      if sub != None {
        requests := requests + [sub.value];
      }
    }

    /** `onError` of the registered write handler */
    method OnWriteHandlerError(e: Cause) returns (o: Outcome)
      modifies this
      ensures (o, Model()) == Step(old(Model()), WriteHandlerError(e))
    {
      o := OnError(e);
    }

    /** `onNext` */
    method OnNext(m: ResponseId)
      modifies this
      ensures Model() == ResponseWriterSpec.OnNext(old(Model()), m)
    {
      writes := writes + [m];
    }

    /** `completed` */
    method Completed()
      modifies this
      ensures Model() == RequestOne(old(Model()))
    {
      var sub := upstream;
      if sub != None {
        requests := requests + [sub.value];
      }
    }

    /** `cancelled` */
    method Cancelled() returns (o: Outcome)
      modifies this
      ensures (o, Model()) == Step(old(Model()), WriteCancelled)
    {
      o := Failed(Cancellation);
    }

    /** `failed` */
    method Failed(e: Cause) returns (o: Outcome)
      modifies this
      ensures (o, Model()) == Step(old(Model()), WriteFailed(e))
    {
      o := OnError(e);
    }

    /** `updated` */
    method Updated()
      ensures Model() == old(Model())
    {
    }

    /** `onError` */
    method OnError(e: Cause) returns (o: Outcome)
      modifies this
      ensures (o, Model()) == ResponseWriterSpec.OnError(old(Model()), e)
    {
      if upstream == None {
        return NullPointer;
      }
      cancels := cancels + [upstream.value];
      upstream := None;
      downstream := downstream + [Errored(e)];
      return Returned;
    }

    /** `onComplete` */
    method OnComplete() returns (o: Outcome)
      modifies this
      ensures (o, Model()) == ResponseWriterSpec.OnComplete(old(Model()))
    {
      if upstream == None {
        return NullPointer;
      }
      cancels := cancels + [upstream.value];
      upstream := None;
      downstream := downstream + [Terminal.Completed];
      return Returned;
    }
  }
}
