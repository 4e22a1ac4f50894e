/**
 * The worker's context record, updated in place as `lib/webworker-child.js`
 * does: inbound dispatch, the uncaught-exception hook with its re-entrancy
 * guard, listener registration and posting to the parent. Each method is
 * proved to leave the record in the state the matching function of
 * ChildSpec prescribes.
 */
module WorkerChild {
  import opened Wrappers
  import opened WorkerUtil
  import opened ChildSpec

  class Worker {
    /** The helpers of `webworker-util` this worker was started with. */
    const util: Util

    // the context (`workerCtx`)
    var closing: bool
    var onmessage: Option<Handler>
    var onerror: Option<Handler>
    var onclose: Option<Handler>
    var eventHandlers: map<string, seq<Handler>>
    // the module-level guard of the exception handler
    var inErrorHandler: bool
    // the socket to the parent: whether it was closed, and what was sent on it
    var socketClosed: bool
    var sent: seq<Frame>
    // every callback invocation, in order
    var trace: seq<Call>

    ghost predicate Valid()
      reads this
    {
      MessageEvent in eventHandlers
    }

    function Snapshot(): (s: State)
      reads this
    {
      State(closing, onmessage, onerror, onclose, eventHandlers, inErrorHandler, socketClosed, sent, trace)
    }

    /** The context as set up before the script runs. */
    constructor (util: Util)
      ensures Valid() && this.util == util
      ensures Snapshot() == Initial()
    {
      this.util := util;
      closing := false;
      onmessage, onerror, onclose := None, None, None;
      eventHandlers := map[MessageEvent := []];
      inErrorHandler := false;
      socketClosed := false;
      sent := [];
      trace := [];
    }

    /** `handleMessage(msg, fd)`: the dispatch of one message from the parent. */
    method HandleMessage(msg: Value, fd: Value)
      requires Valid()
      modifies this
      ensures Valid()
      ensures Snapshot() == HandleMessageSpec(old(Snapshot()), util, msg, fd)
    {
      if !util.isValidMessage(msg) {
        return;
      }
      var tag := At(msg, 0);
      if tag == TagNoop {
      } else if tag == TagClose {
        closing := true;
        socketClosed := true;
        if onclose.Some? {
          trace := trace + [OnClose(onclose.value)];
        }
      } else if tag == TagUser {
        Dispatch(MakeEvent(At(msg, 1), fd));
      }
    }

    /** The USER case: `e` to `onmessage`, then to every `"message"`
        listener, unless nobody is listening. */
    method Dispatch(e: Event)
      requires Valid()
      modifies this`trace
      ensures Snapshot() == DeliverUser(old(Snapshot()), e)
    {
      if onmessage.Some? || |eventHandlers[MessageEvent]| > 0 {
        if onmessage.Some? {
          trace := trace + [OnMessage(onmessage.value, e)];
        }
        Broadcast(e);
      }
    }

    /** The loop of the USER case: `e` to each `"message"` listener in turn. */
    method Broadcast(e: Event)
      requires Valid()
      modifies this`trace
      ensures trace == old(trace) + Deliveries(eventHandlers[MessageEvent], e)
    {
      var i := 0;
      while i < |eventHandlers[MessageEvent]|
        invariant 0 <= i <= |eventHandlers[MessageEvent]|
        invariant trace == old(trace) + Deliveries(eventHandlers[MessageEvent][..i], e)
      {
        var h := eventHandlers[MessageEvent][i];
        assert eventHandlers[MessageEvent][..i + 1] == eventHandlers[MessageEvent][..i] + [h];
        trace := trace + [Listener(h, e)];
        i := i + 1;
      }
      assert eventHandlers[MessageEvent][..i] == eventHandlers[MessageEvent];
    }

    /** `exceptionHandler(e)`. `raisedInHandler` lists the failures that
        reach the hook, in order, while `onerror` is running. */
    method HandleError(e: Value, raisedInHandler: seq<Value>)
      requires Valid()
      modifies this
      decreases |raisedInHandler|
      ensures Valid()
      ensures Snapshot() == HandleErrorSpec(old(Snapshot()), util, e, raisedInHandler)
    {
      if !inErrorHandler && onerror.Some? {
        inErrorHandler := true;
        trace := trace + [OnError(onerror.value, e)];
        ghost var inside := Snapshot();
        var i := 0;
        while i < |raisedInHandler|
          invariant Valid()
          invariant 0 <= i <= |raisedInHandler|
          invariant Snapshot() == HookAll(inside, util, raisedInHandler[..i])
        {
          assert raisedInHandler[..i + 1][..i] == raisedInHandler[..i];
          HandleError(raisedInHandler[i], []);
          i := i + 1;
        }
        assert raisedInHandler[..i] == raisedInHandler;
        inErrorHandler := false;
        return;
      }
      sent := sent + [ErrorFrame(util, e)];
    }

    /** `workerCtx.addEventListener(event, h)`. */
    method AddEventListener(event: string, h: Handler)
      requires Valid()
      modifies this
      ensures Valid()
      ensures Snapshot() == AddEventListenerSpec(old(Snapshot()), event, h)
    {
      if event in eventHandlers {
        eventHandlers := eventHandlers[event := eventHandlers[event] + [h]];
      }
    }

    /** `workerCtx.postMessage(m)`. */
    method PostMessage(m: Value)
      requires Valid()
      modifies this
      ensures Valid()
      ensures Snapshot() == PostMessageSpec(old(Snapshot()), m)
    {
      sent := sent + [Frame(TagUser, Payload(m))];
    }
  }
}
