/**
 * What the worker promises about its context record, stated over the
 * reference functions of ChildSpec (and so, through the methods' contracts,
 * about WorkerChild.Worker).
 */
module ChildProps {
  import opened Wrappers
  import opened WorkerUtil
  import opened ChildSpec

  // ---------------------------------------------------------------- inbound

  /** A value that fails validation changes nothing at all. */
  lemma InvalidMessageIgnored(s: State, util: Util, msg: Value, fd: Value)
    requires Valid(s) && !util.isValidMessage(msg)
    ensures HandleMessageSpec(s, util, msg, fd) == s
  {
  }

  /** NOOP, ERROR and any unrecognised tag change nothing either. */
  lemma OtherTagsIgnored(s: State, util: Util, msg: Value, fd: Value)
    requires Valid(s)
    requires At(msg, 0) != TagClose && At(msg, 0) != TagUser
    ensures HandleMessageSpec(s, util, msg, fd) == s
  {
  }

  /** CLOSE sets `closing`, closes the socket, calls `onclose` exactly once
      when it is set and never otherwise, and calls nothing else. */
  lemma CloseEffect(s: State, util: Util, msg: Value, fd: Value, h: Handler)
    requires Valid(s) && util.isValidMessage(msg) && At(msg, 0) == TagClose
    ensures var r := HandleMessageSpec(s, util, msg, fd);
      && r == s.(closing := true, socketClosed := true, trace := r.trace)
      && |s.trace| <= |r.trace| && r.trace[..|s.trace|] == s.trace
      && multiset(r.trace[|s.trace|..])[OnClose(h)] == (if s.onclose == Some(h) then 1 else 0)
      && (forall c :: c in r.trace[|s.trace|..] ==> c.OnClose?)
  {
    var r := HandleMessageSpec(s, util, msg, fd);
    var delta := if s.onclose.Some? then [OnClose(s.onclose.value)] else [];
    assert r.trace == s.trace + delta;
    assert r.trace[|s.trace|..] == delta;
  }

  /** A USER message that nobody listens for is dropped: nothing changes. */
  lemma UnheardUserMessageDropped(s: State, util: Util, msg: Value, fd: Value)
    requires Valid(s) && util.isValidMessage(msg) && At(msg, 0) == TagUser
    requires s.onmessage.None? && Listeners(s) == []
    ensures HandleMessageSpec(s, util, msg, fd) == s
  {
  }

  /** A valid USER message is handed to DeliverUser. */
  lemma UserDispatch(s: State, util: Util, msg: Value, fd: Value)
    requires Valid(s) && util.isValidMessage(msg) && At(msg, 0) == TagUser
    ensures HandleMessageSpec(s, util, msg, fd) == DeliverUser(s, MakeEvent(At(msg, 1), fd))
  {
    assert TagUser != TagNoop && TagUser != TagClose;
  }

  /** DeliverUser hands `e` to `onmessage` first (when set), then to each
      `"message"` listener in registration order; only the trace changes. */
  lemma DeliverUserOrder(s: State, e: Event)
    requires Valid(s)
    ensures var r := DeliverUser(s, e);
      var n := |s.trace|;
      var first := if s.onmessage.Some? then 1 else 0;
      && r == s.(trace := r.trace)
      && |r.trace| == n + first + |Listeners(s)|
      && r.trace[..n] == s.trace
      && (s.onmessage.Some? ==> r.trace[n] == OnMessage(s.onmessage.value, e))
      && (forall k :: 0 <= k < |Listeners(s)| ==> r.trace[n + first + k] == Listener(Listeners(s)[k], e))
  {
    DeliverUserTrace(s, e);
  }

  /** A USER message builds one event `{data: msg[1], fd?}` and hands it to
      `onmessage` first (when set), then to each `"message"` listener in
      registration order; only the trace changes. */
  lemma UserDeliveryOrder(s: State, util: Util, msg: Value, fd: Value)
    requires Valid(s) && util.isValidMessage(msg) && At(msg, 0) == TagUser
    ensures var r := HandleMessageSpec(s, util, msg, fd);
      var e := MakeEvent(At(msg, 1), fd);
      var n := |s.trace|;
      var first := if s.onmessage.Some? then 1 else 0;
      && e.data == At(msg, 1)
      && (e.fd.Some? <==> Truthy(fd)) && (e.fd.Some? ==> e.fd.value == fd)
      && r == s.(trace := r.trace)
      && |r.trace| == n + first + |Listeners(s)|
      && r.trace[..n] == s.trace
      && (s.onmessage.Some? ==> r.trace[n] == OnMessage(s.onmessage.value, e))
      && (forall k :: 0 <= k < |Listeners(s)| ==> r.trace[n + first + k] == Listener(Listeners(s)[k], e))
  {
    UserDispatch(s, util, msg, fd);
    DeliverUserOrder(s, MakeEvent(At(msg, 1), fd));
  }

  /** Each registration of a listener receives the event exactly once. */
  lemma {:induction false} DeliveriesCount(hs: seq<Handler>, e: Event, h: Handler)
    ensures multiset(Deliveries(hs, e))[Listener(h, e)] == multiset(hs)[h]
    ensures multiset(Deliveries(hs, e))[OnMessage(h, e)] == 0
  {
    if hs != [] {
      var init := hs[..|hs| - 1];
      DeliveriesCount(init, e, h);
      assert hs == init + [hs[|hs| - 1]];
    }
  }

  /** The calls DeliverUser appends to the trace. */
  lemma DeliverUserTrace(s: State, e: Event)
    requires Valid(s)
    ensures DeliverUser(s, e).trace == s.trace + OnMessageCall(s, e) + Deliveries(Listeners(s), e)
  {
  }

  /** DeliverUser calls `onmessage` once if set, and each listener once per
      registration; every call it makes is one of those two, with `e`. */
  lemma DeliverUserCounts(s: State, e: Event, h: Handler)
    requires Valid(s)
    ensures var r := DeliverUser(s, e);
      var delta := r.trace[|s.trace|..];
      && |s.trace| <= |r.trace|
      && multiset(delta)[OnMessage(h, e)] == (if s.onmessage == Some(h) then 1 else 0)
      && multiset(delta)[Listener(h, e)] == multiset(Listeners(s))[h]
      && (forall c :: c in delta ==> (c.OnMessage? || c.Listener?) && c.event == e)
  {
    var d := Deliveries(Listeners(s), e);
    var m := OnMessageCall(s, e);
    var delta := m + d;
    DeliverUserTrace(s, e);
    assert DeliverUser(s, e).trace[|s.trace|..] == delta;
    DeliveriesCount(Listeners(s), e, h);
    assert multiset(delta) == multiset(m) + multiset(d);
    assert multiset(m)[OnMessage(h, e)] == (if s.onmessage == Some(h) then 1 else 0);
    assert multiset(m)[Listener(h, e)] == 0;
    forall c | c in delta
      ensures (c.OnMessage? || c.Listener?) && c.event == e
    {
      if c in d {
        var k :| 0 <= k < |d| && d[k] == c;
      }
    }
  }

  /** For a USER message, `onmessage` fires exactly once if set and never
      otherwise, each handler fires as a listener as many times as it is
      registered, every call carries the same event, and nothing else is
      called. */
  lemma UserDeliveryExactlyOnce(s: State, util: Util, msg: Value, fd: Value, h: Handler)
    requires Valid(s) && util.isValidMessage(msg) && At(msg, 0) == TagUser
    ensures var r := HandleMessageSpec(s, util, msg, fd);
      var e := MakeEvent(At(msg, 1), fd);
      var delta := r.trace[|s.trace|..];
      && |s.trace| <= |r.trace|
      && multiset(delta)[OnMessage(h, e)] == (if s.onmessage == Some(h) then 1 else 0)
      && multiset(delta)[Listener(h, e)] == multiset(Listeners(s))[h]
      && (forall c :: c in delta ==> (c.OnMessage? || c.Listener?) && c.event == e)
  {
    UserDispatch(s, util, msg, fd);
    DeliverUserCounts(s, MakeEvent(At(msg, 1), fd), h);
  }

  // ------------------------------------------------------ context operations

  /** Registering for `"message"` appends at the end and keeps the rest. */
  lemma AddMessageListenerAppends(s: State, h: Handler)
    requires Valid(s)
    ensures var r := AddEventListenerSpec(s, MessageEvent, h);
      Valid(r) && Listeners(r) == Listeners(s) + [h] && r == s.(eventHandlers := r.eventHandlers)
  {
  }

  /** Registering for a name the context does not recognise changes nothing. */
  lemma AddUnknownListenerIgnored(s: State, event: string, h: Handler)
    requires event !in s.eventHandlers
    ensures AddEventListenerSpec(s, event, h) == s
  {
  }

  /** A run of `Posts(ms)`: the script posting each of `ms` in turn. */
  function Posts(ms: seq<Value>): (ops: seq<Op>)
    ensures |ops| == |ms|
    ensures forall k :: 0 <= k < |ms| ==> ops[k] == Post(ms[k])
  {
    if ms == [] then [] else [Post(ms[0])] + Posts(ms[1..])
  }

  /** Posted messages leave as `[USER, m]`, one each, in posting order, and
      posting changes nothing but the outbound log. */
  lemma {:induction false} PostsInOrder(s: State, util: Util, ms: seq<Value>)
    requires Valid(s)
    decreases |ms|
    ensures var r := Run(s, util, Posts(ms));
      && r == s.(sent := r.sent)
      && |r.sent| == |s.sent| + |ms|
      && r.sent[..|s.sent|] == s.sent
      && (forall k :: 0 <= k < |ms| ==> r.sent[|s.sent| + k] == Frame(TagUser, Payload(ms[k])))
  {
    if ms != [] {
      var s' := PostMessageSpec(s, ms[0]);
      assert Posts(ms)[1..] == Posts(ms[1..]);
      PostsInOrder(s', util, ms[1..]);
      var r := Run(s', util, Posts(ms[1..]));
      forall k | 0 <= k < |ms|
        ensures r.sent[|s.sent| + k] == Frame(TagUser, Payload(ms[k]))
      {
        if k > 0 {
          assert r.sent[|s'.sent| + (k - 1)] == Frame(TagUser, Payload(ms[1..][k - 1]));
        }
      }
    }
  }

  // ---------------------------------------------------------------- errors

  /** While the guard is set, every failure is escalated to the parent as
      one ERROR message, in order, and no callback runs. */
  lemma {:induction false} GuardedFailuresEscalate(s: State, util: Util, errs: seq<Value>)
    requires s.inErrorHandler
    ensures HookAll(s, util, errs) == s.(sent := s.sent + ErrorFrames(util, errs))
  {
    if errs != [] {
      GuardedFailuresEscalate(s, util, errs[..|errs| - 1]);
    }
  }

  /** With the guard clear and `onerror` set, `onerror` is called exactly
      once, the failure itself is not sent, each failure raised meanwhile is
      sent as one ERROR message instead of re-entering `onerror`, and the
      guard is clear again afterwards. */
  lemma ErrorHandledLocally(s: State, util: Util, e: Value, raisedInHandler: seq<Value>)
    requires !s.inErrorHandler && s.onerror.Some?
    ensures var r := HandleErrorSpec(s, util, e, raisedInHandler);
      && r == s.(sent := r.sent, trace := r.trace)
      && r.trace == s.trace + [OnError(s.onerror.value, e)]
      && r.sent == s.sent + ErrorFrames(util, raisedInHandler)
  {
    var inside := s.(inErrorHandler := true, trace := s.trace + [OnError(s.onerror.value, e)]);
    GuardedFailuresEscalate(inside, util, raisedInHandler);
  }

  /** Otherwise the failure is sent as exactly one
      `[ERROR, {message, filename, lineno}]` and `onerror` is not called. */
  lemma ErrorEscalated(s: State, util: Util, e: Value, raisedInHandler: seq<Value>)
    requires s.inErrorHandler || s.onerror.None?
    ensures var r := HandleErrorSpec(s, util, e, raisedInHandler);
      && r == s.(sent := s.sent + [ErrorFrame(util, e)])
      && ErrorFrame(util, e).tag == TagError
      && ErrorFrame(util, e).body
         == ErrorRecord(util.errorMessage(e), util.errorFilename(e), util.errorLine(e))
  {
  }

  // --------------------------------------------------------------- sessions

  lemma GrowsTransitive(a: State, b: State, c: State)
    requires Grows(a, b) && Grows(b, c)
    ensures Grows(a, c)
  {
  }

  lemma StepGrows(s: State, util: Util, op: Op)
    requires Valid(s)
    ensures Grows(s, Step(s, util, op))
  {
  }

  /** Over any run of the modelled operations: closing is terminal, the socket stays closed,
      the outbound log and trace are append-only, listener lists only grow
      at their end, and a clear guard is clear again after every step. */
  lemma {:induction false} RunGrows(s: State, util: Util, ops: seq<Op>)
    requires Valid(s)
    ensures Grows(s, Run(s, util, ops))
    decreases |ops|
  {
    if ops != [] {
      var s' := Step(s, util, ops[0]);
      StepGrows(s, util, ops[0]);
      RunGrows(s', util, ops[1..]);
      GrowsTransitive(s, s', Run(s', util, ops[1..]));
    }
  }

  /** From the initial context, under any run of the modelled operations:
      `"message"` stays the only recognised event name and the guard is clear
      between operations. */
  lemma FromInitial(util: Util, ops: seq<Op>)
    ensures var r := Run(Initial(), util, ops);
      r.eventHandlers.Keys == {MessageEvent} && !r.inErrorHandler
  {
    RunGrows(Initial(), util, ops);
  }
}
