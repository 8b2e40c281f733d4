/**
 * JavaScript values as they reach the application's code: parsed JSON bodies,
 * stored records and loose inputs. `undefined` is not a JSON value; where a
 * property may be absent the model uses `Option<Json>`, with `None` for
 * `undefined`.
 */
module JsValues {

  datatype Option<+T> = None | Some(value: T)

  datatype Json =
    | JNull
    | JBool(b: bool)
    | JNum(n: real)
    | JStr(s: string)
    | JArr(items: seq<Json>)
    | JObj(fields: map<string, Json>)

  /** `Boolean(v)`: JSON values are falsy exactly when null, false, 0 or the empty string. */
  predicate Truthy(v: Json) {
    match v
    case JNull => false
    case JBool(b) => b
    case JNum(n) => n != 0.0
    case JStr(s) => s != ""
    case _ => true
  }

  /** `Boolean(x)` for a possibly absent value: `undefined` is falsy. */
  predicate TruthyOpt(x: Option<Json>) {
    x.Some? && Truthy(x.value)
  }

  /**
   * Reading property `key` of a value that is not null: an object yields its
   * own entry or `undefined`. The property names read by the application
   * (`digest`, `error`, `tasks`, ...) are not properties of strings, numbers,
   * booleans or arrays, so those yield `undefined`.
   */
  function Field(v: Json, key: string): (r: Option<Json>)
    requires !v.JNull?
    ensures r.Some? <==> v.JObj? && key in v.fields
    ensures r.Some? ==> r.value == v.fields[key]
  {
    if v.JObj? && key in v.fields then Some(v.fields[key]) else None
  }

  /**
   * The own enumerable entries `{...v}` copies: an object's fields; null,
   * booleans and numbers contribute nothing. Strings and arrays contribute
   * their index keys in JavaScript; this model gives them none.
   */
  function Spread(v: Json): (m: map<string, Json>)
    ensures v.JObj? ==> m == v.fields
    ensures !v.JObj? ==> m == map[]
  {
    if v.JObj? then v.fields else map[]
  }

  /**
   * `a ?? b` on a value that may be absent; also `a || b` where `a` is
   * falsy only when it is absent.
   */
  function OrElse<T>(a: Option<T>, b: T): (r: T)
    ensures a.Some? ==> r == a.value
    ensures a.None? ==> r == b
  {
    if a.Some? then a.value else b
  }
}
