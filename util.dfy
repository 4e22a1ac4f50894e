/**
 * What the worker's control logic uses from `lib/webworker-util.js`.
 * That file is not part of this model: its message-type tags become four
 * distinct constants, and its helpers (`isValidMessage`, `getErrorMessage`,
 * `getErrorFilename`, `getErrorLine`) become function values whose bodies
 * are unknown to every proof.
 */
module WorkerUtil {

  /** A JavaScript value, as far as the worker looks at one. Numbers are
      integers here; arrays hold their elements; other objects and functions
      are opaque references. */
  datatype Value =
    | Undefined
    | Null
    | Bool(b: bool)
    | Num(n: int)
    | Str(s: string)
    | Arr(elems: seq<Value>)
    | Obj(ref: nat)

  /** JavaScript truthiness (what `if (fd)` tests). */
  predicate Truthy(v: Value) {
    match v
    case Undefined => false
    case Null => false
    case Bool(b) => b
    case Num(n) => n != 0
    case Str(s) => s != ""
    case Arr(_) => true
    case Obj(_) => true
  }

  /** `v[i]`: an element of an array, a one-character string of a string,
      and `undefined` past the end. Every other value, including an opaque
      object, is read as having no index properties, so it gives `undefined`
      too. */
  function At(v: Value, i: nat): (r: Value) {
    match v
    case Arr(elems) => if i < |elems| then elems[i] else Undefined
    case Str(s) => if i < |s| then Str([s[i]]) else Undefined
    case _ => Undefined
  }

  /** The message-type tags, as arbitrary distinct constants: their actual
      values are not part of this model, and only their distinctness is used. */
  const TagNoop: Value := Num(0)
  const TagClose: Value := Num(1)
  const TagError: Value := Num(2)
  const TagUser: Value := Num(3)

  /** The helpers of `webworker-util` whose bodies are not modelled. */
  datatype Util = Util(
    isValidMessage: Value -> bool,
    errorMessage: Value -> Value,
    errorFilename: Value -> Value,
    errorLine: Value -> Value)
}
