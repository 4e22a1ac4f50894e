# Web worker child: control logic

This project models the worker side of `node-webworker`: the child process
that runs one worker script and talks to its parent. It covers the part of
`lib/webworker-child.js` that decides what happens. The rest is transport,
file loading and host plumbing.

That part is a sequential state machine over one record:

- the context's `closing` flag;
- its `onmessage`, `onerror` and `onclose` slots;
- its `eventHandlers` map, whose only key is `"message"` under the
  modelled operations;
- the module-level `inErrorHandler` guard of the exception handler;
- whether the socket to the parent has been closed;
- the frames sent to the parent;
- the trace of script callbacks invoked.

Callbacks are opaque handler ids. Calling one appends a `Call` to the trace.

The project has six modules:

- `Wrappers` (`wrappers.dfy`): `Option` and `Result`.
- `WorkerUtil` (`util.dfy`): what the child uses from `lib/webworker-util.js`.
  That file is not part of this model.
  - The message tags NOOP, CLOSE, ERROR and USER are arbitrary distinct
    constants. Their actual values are not part of this model; only their
    distinctness is used.
  - `isValidMessage`, `getErrorMessage`, `getErrorFilename` and
    `getErrorLine` are function values in a `Util` record. No proof depends
    on their bodies.
  - JavaScript values become a small `Value` datatype with JavaScript
    truthiness, arrays included. An inbound message is any such value.
    `At` gives indexing: an array element, a one-character string, or
    `undefined`. Any other value, including a non-array object, is read as
    having no index properties.
- `ChildSpec` (`spec.dfy`): the record as a `State` datatype, with one
  reference function per operation.
- `WorkerChild` (`child.dfy`): class `Worker`. Its fields are updated in
  place, as the source does. Each method is proved to produce exactly the
  state the matching `ChildSpec` function gives (`Snapshot()`).
- `ChildProps` (`props.dfy`): the properties the worker promises, proved
  about those functions.
- `ListenerLookup` (`listener_lookup.dfy`): `addEventListener` as written,
  for the finding below.

`HandleError` takes an extra argument, `raisedInHandler`. It lists the
uncaught failures that reach the hook while `onerror` is running. Without
it, the case "guard already set" could not be reached. The method handles
each of them by calling itself, as the hook re-enters `exceptionHandler`.

## Model

| member | source | states |
|---|---|---|
| `WorkerChild.Worker.constructor` | lib/webworker-child.js:143-180 | The initial context: `closing` false, no `onmessage`/`onerror`/`onclose`, `eventHandlers` holds only an empty `"message"` list, guard clear, socket open, nothing sent, nothing called |
| `WorkerChild.Worker.HandleMessage` | lib/webworker-child.js:53-102 | The in-place dispatch leaves the record exactly as `HandleMessageSpec` prescribes, and the `"message"` list stays present |
| `WorkerChild.Worker.Dispatch` | lib/webworker-child.js:80-93 | The USER case leaves the record as `DeliverUser` prescribes: `onmessage` first, then every listener, and nothing at all when nobody listens |
| `WorkerChild.Worker.Broadcast` | lib/webworker-child.js:91-93 | The indexed loop appends one `Listener` call per registered listener, in list order, and changes nothing but the trace |
| `WorkerChild.Worker.HandleError` | lib/webworker-child.js:33-50 | The hook, including its re-entrant calls, leaves the record exactly as `HandleErrorSpec` prescribes |
| `WorkerChild.Worker.AddEventListener` | lib/webworker-child.js:181-185 | Registration leaves the record as `AddEventListenerSpec` prescribes |
| `WorkerChild.Worker.PostMessage` | lib/webworker-child.js:171-173 | Posting appends exactly `[USER, m]` to the outbound log and changes nothing else |
| `ChildSpec.Deliveries` | lib/webworker-child.js:91-93 | The k-th listener call goes to the k-th registered listener with the same event, and there is one call per registration |
| `ChildSpec.Register` | lib/webworker-child.js:180-185 | A recognised name gets `h` appended at the end of its list; every other list is unchanged; no name is added; an unrecognised name leaves the map as it was |
| `ChildSpec.ErrorFrames` | lib/webworker-child.js:45-49 | One `[ERROR, {message, filename, lineno}]` frame per failure, in the failures' order |
| `ChildSpec.HandleErrorSpec` | lib/webworker-child.js:34-50 | Handling a failure touches only the guard, the outbound log and the trace. The guard ends as it started. The log and the trace only grow |
| `ChildSpec.HookAll` | lib/webworker-child.js:34-50 | Feeding failures to the hook one after another has the same frame: only the log and trace grow, and the guard is kept |
| `ChildSpec.Step` | lib/webworker-child.js:53-185 | Every modelled operation keeps the `"message"` list present |
| `ChildSpec.Run` | lib/webworker-child.js:53-185 | Any sequence of modelled operations keeps the `"message"` list present |
| `ChildProps.InvalidMessageIgnored` | lib/webworker-child.js:53-57 | Any inbound JavaScript value (array or not) failing `isValidMessage` changes no field, calls no callback, sends nothing and leaves the socket alone |
| `ChildProps.OtherTagsIgnored` | lib/webworker-child.js:59-101 | NOOP, and any tag other than CLOSE or USER (ERROR included), leave the whole record unchanged |
| `ChildProps.CloseEffect` | lib/webworker-child.js:63-75 | CLOSE sets `closing` and closes the socket. It calls `onclose` exactly once when set and never otherwise. It calls no other callback and changes no other field |
| `ChildProps.UnheardUserMessageDropped` | lib/webworker-child.js:80 | A USER message with no `onmessage` and no `"message"` listener changes nothing: it is dropped, not queued |
| `ChildProps.DeliverUserOrder` | lib/webworker-child.js:87-93 | `onmessage` (if set) receives the event first, then listener k at position k after it. Only the trace changes, and the old trace is a prefix |
| `ChildProps.UserDeliveryOrder` | lib/webworker-child.js:80-93 | The event has `data = msg[1]` and carries `fd` exactly when `fd` is truthy. `onmessage` (if set) receives it first. Listener k then receives it at position k. Only the trace changes, and the old trace is a prefix |
| `ChildProps.DeliveriesCount` | lib/webworker-child.js:91-93 | Each registration of a handler yields exactly one listener call, and the loop never calls `onmessage` |
| `ChildProps.DeliverUserCounts` | lib/webworker-child.js:80-93 | Delivery calls `onmessage` exactly once if set and never otherwise. It calls each handler as a listener once per registration. Every call carries the same event |
| `ChildProps.UserDeliveryExactlyOnce` | lib/webworker-child.js:80-93 | The same exactly-once counts, for `handleMessage` on a valid USER message |
| `ChildProps.AddMessageListenerAppends` | lib/webworker-child.js:181-185 | `addEventListener("message", h)` appends `h` at the end and keeps earlier entries in order. Nothing else changes |
| `ChildProps.AddUnknownListenerIgnored` | lib/webworker-child.js:182 | Any other event name leaves the context unchanged |
| `ChildProps.PostsInOrder` | lib/webworker-child.js:171-173 | Posting m1..mn sends exactly `[USER, m1]`..`[USER, mn]`, in that order, after what was already sent. Nothing else changes |
| `ChildProps.GuardedFailuresEscalate` | lib/webworker-child.js:43-49 | While the guard is set, each failure is sent as one ERROR frame, in order. No callback runs |
| `ChildProps.ErrorHandledLocally` | lib/webworker-child.js:35-41 | With the guard clear and `onerror` set: `onerror` is called exactly once and the failure is not sent. Failures raised meanwhile are escalated as ERROR frames and do not re-enter `onerror`. The guard is clear afterwards |
| `ChildProps.ErrorEscalated` | lib/webworker-child.js:43-49 | With the guard set or no `onerror`: exactly one `[ERROR, {message, filename, lineno}]` is sent, built from the three extractors. `onerror` is not called |
| `ChildProps.StepGrows` | lib/webworker-child.js:53-185 | No single modelled operation reopens the socket, unsets `closing`, removes a sent frame, a trace entry or a listener, adds an event name, or leaves a clear guard set |
| `ChildProps.RunGrows` | lib/webworker-child.js:53-185 | The same holds over any sequence of messages, failures, registrations, posts and slot assignments |
| `ChildProps.FromInitial` | lib/webworker-child.js:176-185 | From the initial context, under the modelled operations, `"message"` remains the only event name and the guard is clear between operations |
| `ListenerLookup.AddEventListenerAsWritten` | lib/webworker-child.js:181-185 | As written, registration throws exactly for an inherited `Object.prototype` name that is not an own key. Otherwise it agrees with `Register` |
| `ListenerLookup.ToStringThrows` | lib/webworker-child.js:182-183 | `addEventListener("toString", h)` throws as written, while `Register` leaves the listeners unchanged |

## Left out

- The WebSocket connection, the `ws+unix://` address, the `'open'` wiring and
  `MsgStream` framing (lines 111-126). This is transport I/O. The socket
  is a "closed" flag plus a log of frames handed to it. Delivery after
  close is not modelled.
- `vm.createContext`, `vm.runInContext` and `importScripts` (lines 125,
  186-193). They run foreign script code and read files.
- Script loading, the `file`-protocol switch with `fs.readFileSync` and
  `process.exit(1)`, and the argument check (lines 104-109, 128-140). These
  are startup I/O. `WorkerLocation` parsing is in `lib/webworker-util.js`,
  which is not part of this model.
- `workerCtx.close` (lines 177-179). It calls `process.exit(0)`; it does not
  set `closing`, close the socket or call `onclose`. Only the CLOSE message
  path does those things, and the model follows the code here.
- The host globals copied into the context (lines 148-168, 174-175). They
  are pass-throughs with no logic.
- The `wwutil.debug` logging of invalid and unexpected messages. It has no
  effect on the context.
- The bodies of `isValidMessage`, `getErrorMessage`, `getErrorFilename` and
  `getErrorLine`. They are uninterpreted, so the model cannot state what text
  a given failure yields: that `"boom"`/`"a.js"`/`7` arrive unchanged
  depends on those bodies.
- Callbacks that throw or change the context while they run. Each callback
  returns normally and changes nothing. So the model does not capture that
  the loop at line 91 re-reads the list length, so listeners added during
  dispatch would also run. It does not capture that a throwing `onmessage`
  aborts the listener loop. Nor does it capture that a throwing `onerror`
  skips line 38 and leaves the guard set; in Node such a throw from the
  uncaught-exception hook ends the process.
- `ChildProps.RunGrows`, `ChildProps.StepGrows` and `ChildProps.FromInitial`
  hold for the modelled operations only. The script runs with the context as
  its global object (lines 125, 193), so it can also assign `closing`,
  `eventHandlers` or the `"message"` array directly, for example
  `closing = false` or a top-level `var eventHandlers = {}`. Such direct
  writes are not modelled. Under them, `closing` need not stay true, listener
  lists need not only grow, and the event names can change.
- A non-array object is read as having no index properties, so `msg[0]`
  and `msg[1]` are `undefined` for it. In JavaScript an object such as
  `{"0": 1, "1": "x"}` has them, and line 59 would read its tag. The model
  then treats that message as an unrecognised tag. This matters only if
  `isValidMessage` accepts such an object; its body is not part of this
  model.
- Indexing `null` or `undefined` throws in JavaScript. If `isValidMessage`
  accepted such a value, `msg[0]` at line 59 would throw. The model reads it
  as `undefined` instead, which treats the message as an unrecognised tag.
  This matters only if `isValidMessage` accepts `null` or `undefined`; its
  body is not part of this model.
- Slots holding a truthy value that is not a function. Slots are modelled
  as absent or holding a handler.
- Listener entries that are not functions. Lines 181-183 push any value, so
  `addEventListener("message")` with no handler, or with `null`, adds an
  entry. Line 80 then sees a non-empty list, and line 92 throws a TypeError
  on that entry for every USER message. The listeners after it are skipped,
  and the failure goes to the uncaught-exception hook. Listeners are
  modelled as handler ids, all of them callable.
- `ChildProps.DeliverUserCounts`, `ChildProps.UserDeliveryExactlyOnce`,
  `ChildProps.DeliverUserOrder` and `ChildProps.UserDeliveryOrder` hold for
  callable listeners only. With an entry that is not a function, the
  listeners after it are not called.
- Strings are indexed by Unicode scalar value, as Dafny's `char` holds them.
  JavaScript indexes UTF-16 code units, so for `"😀x"` its `msg[1]` is a lone
  surrogate, while `At` gives `"x"`. This matters only if `isValidMessage`
  accepts a string; its body is not part of this model.
- Numbers are integers. `NaN` is not modelled, so neither is its falsiness
  in `if (fd)`.

## Findings

| source | as written | input that shows it | evidently intended | confidence | as-written member | corrected member |
|---|---|---|---|---|---|---|
| lib/webworker-child.js:182 | `event in workerCtx.eventHandlers` also finds names inherited from `Object.prototype`. Line 183 then calls `push` on a function (or on the prototype, for `__proto__`), which throws a TypeError | `addEventListener("toString", f)` (also `"constructor"`, `"valueOf"`, `"__proto__"`, ...) | an unrecognised event name is silently ignored; only own keys count | high, not executed | `ListenerLookup.AddEventListenerAsWritten` (counterexample: `ListenerLookup.ToStringThrows`) | `ChildSpec.Register` |
