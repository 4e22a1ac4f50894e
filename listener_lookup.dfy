/**
 * `addEventListener` as `lib/webworker-child.js` writes it. Its test
 * `event in workerCtx.eventHandlers` is JavaScript's `in`, which also finds
 * every name a plain object inherits from `Object.prototype`. For such a
 * name the lookup yields a function (or, for `__proto__`, the prototype
 * object itself), neither of which has `push`, so the call throws a
 * TypeError instead of being ignored. ChildSpec.Register is the intended
 * behaviour, and the one the rest of the model uses.
 */
module ListenerLookup {
  import opened Wrappers
  import opened ChildSpec

  /** The names every plain JavaScript object inherits. */
  const InheritedNames: set<string> := {
    "constructor", "hasOwnProperty", "isPrototypeOf", "propertyIsEnumerable",
    "toLocaleString", "toString", "valueOf", "__proto__",
    "__defineGetter__", "__defineSetter__", "__lookupGetter__", "__lookupSetter__"
  }

  datatype Thrown = TypeError

  /** The registration as written: throws exactly for an inherited name that
      is not an own key, and otherwise agrees with Register. */
  function AddEventListenerAsWritten(handlers: map<string, seq<Handler>>, event: string, h: Handler)
    : (r: Result<map<string, seq<Handler>>, Thrown>)
    ensures r.Err? <==> event !in handlers && event in InheritedNames
    ensures r.Ok? ==> r.value == Register(handlers, event, h)
  {
    if event in handlers then Ok(handlers[event := handlers[event] + [h]])
    else if event in InheritedNames then Err(TypeError)
    else Ok(handlers)
  }

  /** `addEventListener("toString", h)` on the initial context throws, where
      an unrecognised name should leave the listeners as they are. */
  lemma ToStringThrows(h: Handler)
    ensures AddEventListenerAsWritten(Initial().eventHandlers, "toString", h) == Err(TypeError)
    ensures Register(Initial().eventHandlers, "toString", h) == Initial().eventHandlers
  {
    assert "toString" != MessageEvent;
  }
}
