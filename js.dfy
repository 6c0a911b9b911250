/** JavaScript values as the request handlers of server.js see them: the
    parsed JSON body, the parsed query string, the webhook responses and the
    listing sets the scrapers return. */
module Js {

  datatype Option<+T> = None | Some(value: T)

  /** A JSON-compatible JavaScript value. Numbers are integers here (see the
      README for what that leaves out); objects are maps from property name
      to value. */
  datatype JsValue =
    | Undefined
    | Null
    | Bool(b: bool)
    | Num(n: int)
    | Str(s: string)
    | Arr(items: seq<JsValue>)
    | Obj(props: map<string, JsValue>)

  /** What an awaited call did: resolved with a value, or threw. The thrown
      value's `message` property is `None` when it has none (a thrown string,
      say), which JavaScript reads as `undefined`. A thrown `null` or
      `undefined` has no counterpart here. */
  datatype Outcome<+T> = Ok(value: T) | Fail(message: Option<string>)

  /** JavaScript truthiness: `!v` is true exactly when this is false. */
  predicate Truthy(v: JsValue)
  {
    match v
    case Undefined => false
    case Null => false
    case Bool(b) => b
    case Num(n) => n != 0
    case Str(s) => s != ""
    case Arr(_) => true
    case Obj(_) => true
  }

  /** Reading property `key` of a plain object: an absent own property reads
      as `undefined` (the names read by the handlers are not inherited from
      Object.prototype). */
  function Get(o: map<string, JsValue>, key: string): JsValue
  {
    if key in o then o[key] else Undefined
  }

  /** `v.key` on any value. Only objects have the own properties the
      handlers read (`url`); strings, numbers, booleans and arrays read
      them as `undefined`. Only called on truthy values, so never on
      `null` or `undefined`. */
  function Member(v: JsValue, key: string): JsValue
  {
    if v.Obj? then Get(v.props, key) else Undefined
  }
}
