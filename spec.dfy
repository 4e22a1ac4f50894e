/**
 * The worker side of `lib/webworker-child.js` as a state machine over one
 * record: the context's `closing` flag, its `onmessage`/`onerror`/`onclose`
 * slots and `eventHandlers` map, the module-level `inErrorHandler` guard,
 * whether the socket to the parent has been closed, the frames sent to the
 * parent, and the trace of callback invocations.
 *
 * The functions here are the reference definitions the imperative class in
 * module WorkerChild is proved against; the lemmas state what the worker
 * promises about them.
 */
module ChildSpec {
  import opened Wrappers
  import opened WorkerUtil

  /** A script callback, identified opaquely. */
  type Handler = nat

  /** The one event name the context recognises. */
  const MessageEvent: string := "message"

  /** The event object built for a USER message. */
  datatype Event = Event(data: Value, fd: Option<Value>)

  /** One invocation of a script callback, as recorded in the trace. */
  datatype Call =
    | OnMessage(h: Handler, event: Event)
    | Listener(h: Handler, event: Event)
    | OnClose(h: Handler)
    | OnError(h: Handler, error: Value)

  /** The second element of an outbound message. */
  datatype Body =
    | Payload(data: Value)
    | ErrorRecord(message: Value, filename: Value, lineno: Value)

  /** An outbound message `[tag, body]`. */
  datatype Frame = Frame(tag: Value, body: Body)

  datatype State = State(
    closing: bool,
    onmessage: Option<Handler>,
    onerror: Option<Handler>,
    onclose: Option<Handler>,
    eventHandlers: map<string, seq<Handler>>,
    inErrorHandler: bool,
    socketClosed: bool,
    sent: seq<Frame>,
    trace: seq<Call>)

  /** The `"message"` list is always there to be read. */
  predicate Valid(s: State) {
    MessageEvent in s.eventHandlers
  }

  function Listeners(s: State): (hs: seq<Handler>)
    requires Valid(s)
  {
    s.eventHandlers[MessageEvent]
  }

  /** The context as it stands before the script runs. */
  function Initial(): (s: State) {
    State(false, None, None, None, map[MessageEvent := []], false, false, [], [])
  }

  // ---------------------------------------------------------------- inbound

  /** `{data: msg[1]}`, with `fd` attached only when it is truthy. */
  function MakeEvent(data: Value, fd: Value): (e: Event) {
    Event(data, if Truthy(fd) then Some(fd) else None)
  }

  /** The calls made by handing `e` to each listener of `hs` in turn. */
  function Deliveries(hs: seq<Handler>, e: Event): (r: seq<Call>)
    ensures |r| == |hs|
    ensures forall k :: 0 <= k < |hs| ==> r[k] == Listener(hs[k], e)
  {
    if hs == [] then [] else Deliveries(hs[..|hs| - 1], e) + [Listener(hs[|hs| - 1], e)]
  }

  function OnMessageCall(s: State, e: Event): (calls: seq<Call>) {
    if s.onmessage.Some? then [OnMessage(s.onmessage.value, e)] else []
  }

  /** The USER case: `onmessage` first, then every `"message"` listener. */
  function DeliverUser(s: State, e: Event): (r: State)
    requires Valid(s)
  {
    if s.onmessage.None? && Listeners(s) == [] then s
    else s.(trace := s.trace + OnMessageCall(s, e) + Deliveries(Listeners(s), e))
  }

  /** The CLOSE case. */
  function CloseSpec(s: State): (r: State) {
    s.(closing := true,
       socketClosed := true,
       trace := s.trace + if s.onclose.Some? then [OnClose(s.onclose.value)] else [])
  }

  /** `handleMessage(msg, fd)`. */
  function HandleMessageSpec(s: State, util: Util, msg: Value, fd: Value): (r: State)
    requires Valid(s)
  {
    if !util.isValidMessage(msg) then s
    else if At(msg, 0) == TagNoop then s
    else if At(msg, 0) == TagClose then CloseSpec(s)
    else if At(msg, 0) == TagUser then DeliverUser(s, MakeEvent(At(msg, 1), fd))
    else s
  }

  // ------------------------------------------------------ context operations

  /** `eventHandlers` after `addEventListener(event, h)`: only a name the map
      already holds as its own key is extended. */
  function Register(handlers: map<string, seq<Handler>>, event: string, h: Handler)
    : (r: map<string, seq<Handler>>)
    ensures r.Keys == handlers.Keys
    ensures event in handlers ==> r[event] == handlers[event] + [h]
    ensures forall ev :: ev in handlers && ev != event ==> r[ev] == handlers[ev]
    ensures event !in handlers ==> r == handlers
  {
    if event in handlers then handlers[event := handlers[event] + [h]] else handlers
  }

  function AddEventListenerSpec(s: State, event: string, h: Handler): (r: State) {
    s.(eventHandlers := Register(s.eventHandlers, event, h))
  }

  /** `postMessage(m)`. */
  function PostMessageSpec(s: State, m: Value): (r: State) {
    s.(sent := s.sent + [Frame(TagUser, Payload(m))])
  }

  // ---------------------------------------------------------------- errors

  /** The ERROR message reporting `e` to the parent. */
  function ErrorFrame(util: Util, e: Value): (f: Frame) {
    Frame(TagError, ErrorRecord(util.errorMessage(e), util.errorFilename(e), util.errorLine(e)))
  }

  /** The ERROR messages reporting each of `errs`, in order. */
  function ErrorFrames(util: Util, errs: seq<Value>): (r: seq<Frame>)
    ensures |r| == |errs|
    ensures forall k :: 0 <= k < |errs| ==> r[k] == ErrorFrame(util, errs[k])
  {
    if errs == [] then []
    else ErrorFrames(util, errs[..|errs| - 1]) + [ErrorFrame(util, errs[|errs| - 1])]
  }

  /** `exceptionHandler(e)`. The failures in `raisedInHandler` are the ones
      that reach the uncaught-exception hook, in order, while `onerror` runs. */
  function HandleErrorSpec(s: State, util: Util, e: Value, raisedInHandler: seq<Value>): (r: State)
    ensures r == s.(inErrorHandler := r.inErrorHandler, sent := r.sent, trace := r.trace)
    ensures r.inErrorHandler == s.inErrorHandler
    ensures s.sent <= r.sent && s.trace <= r.trace
    decreases |raisedInHandler|, 1
  {
    if !s.inErrorHandler && s.onerror.Some? then
      var inside := s.(inErrorHandler := true, trace := s.trace + [OnError(s.onerror.value, e)]);
      HookAll(inside, util, raisedInHandler).(inErrorHandler := false)
    else
      s.(sent := s.sent + [ErrorFrame(util, e)])
  }

  /** The hook run on each of `errs` in order, none raising further. */
  function HookAll(s: State, util: Util, errs: seq<Value>): (r: State)
    ensures r == s.(inErrorHandler := r.inErrorHandler, sent := r.sent, trace := r.trace)
    ensures r.inErrorHandler == s.inErrorHandler
    ensures s.sent <= r.sent && s.trace <= r.trace
    decreases |errs|, 0
  {
    if errs == [] then s
    else HandleErrorSpec(HookAll(s, util, errs[..|errs| - 1]), util, errs[|errs| - 1], [])
  }

  // --------------------------------------------------------------- sessions

  /** The modelled operations that drive the context: an inbound message,
      an uncaught failure, a call of `addEventListener` or `postMessage`, or
      an assignment to one of the three callback slots. Other writes by the
      script to the context (to `closing` or `eventHandlers`) are not
      among them. */
  datatype Op =
    | Receive(msg: Value, fd: Value)
    | Uncaught(error: Value, raisedInHandler: seq<Value>)
    | AddListener(event: string, h: Handler)
    | Post(data: Value)
    | SetOnMessage(slot: Option<Handler>)
    | SetOnError(slot: Option<Handler>)
    | SetOnClose(slot: Option<Handler>)

  function Step(s: State, util: Util, op: Op): (r: State)
    requires Valid(s)
    ensures Valid(r)
  {
    match op
    case Receive(msg, fd) => HandleMessageSpec(s, util, msg, fd)
    case Uncaught(e, raised) => HandleErrorSpec(s, util, e, raised)
    case AddListener(event, h) => AddEventListenerSpec(s, event, h)
    case Post(m) => PostMessageSpec(s, m)
    case SetOnMessage(slot) => s.(onmessage := slot)
    case SetOnError(slot) => s.(onerror := slot)
    case SetOnClose(slot) => s.(onclose := slot)
  }

  function Run(s: State, util: Util, ops: seq<Op>): (r: State)
    requires Valid(s)
    ensures Valid(r)
    decreases |ops|
  {
    if ops == [] then s else Run(Step(s, util, ops[0]), util, ops[1..])
  }

  /** What no modelled operation undoes: closing is terminal, the socket stays closed,
      the outbound log and the trace only grow, listener lists only grow at
      their end, no event name appears or disappears, and a clear guard stays
      clear between steps. */
  ghost predicate Grows(s: State, r: State) {
    && (s.closing ==> r.closing)
    && (s.socketClosed ==> r.socketClosed)
    && s.sent <= r.sent
    && s.trace <= r.trace
    && r.eventHandlers.Keys == s.eventHandlers.Keys
    && (forall ev :: ev in s.eventHandlers ==> s.eventHandlers[ev] <= r.eventHandlers[ev])
    && (!s.inErrorHandler ==> !r.inErrorHandler)
  }
}
