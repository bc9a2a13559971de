/** Values shared by every part of the model: an optional value (JavaScript's
    `null`/`undefined` versus a present value) and flat JSON-like records. */
module Common {

  datatype Option<+T> = None | Some(value: T) {
    /** The value, or `default` when absent. */
    function GetOr(default: T): T {
      match this
      case Some(v) => v
      case None => default
    }
  }

  /** A scalar JSON value: what the flat records of the application hold. */
  datatype JsonValue = JNull | JBool(b: bool) | JNumber(n: int) | JString(s: string)

  /** A flat JavaScript object, keyed by property name. A shallow merge
      `{...a, ...b}` is the map union `a + b`. */
  type Object = map<string, JsonValue>

  /** What the application reads from the clock and the random source at one
      call: `Date.now()`, `new Date().toISOString()`, the base-36 random
      suffix of a generated id, and the `zh-CN` long date. */
  datatype Clock = Clock(ms: nat, iso: string, rand: string, localeDate: string)

  /** JavaScript truthiness of an optional string: absent and "" are falsy. */
  predicate Truthy(s: Option<string>) {
    s.Some? && s.value != ""
  }

  /** `s || fallback` for an optional string. */
  function OrElse(s: Option<string>, fallback: string): (r: string)
    ensures Truthy(s) ==> r == s.value
    ensures !Truthy(s) ==> r == fallback
  {
    if Truthy(s) then s.value else fallback
  }
}
