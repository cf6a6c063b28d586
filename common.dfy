/**
 * Values shared by every part of the model: optional values, the outcome of
 * one remote call, and the untyped JSON body a list endpoint answers with.
 */
module Common {

  /** A value that may be absent (`null` / `undefined` in the client). */
  datatype Option<+T> = None | Some(value: T)

  /**
   * The outcome of one awaited remote call: the decoded body, or a rejected
   * promise (network error, non-2xx status, malformed reply).
   */
  datatype Response<+T> = Ok(data: T) | Failed

  /**
   * The body of a list endpoint, whose shape is not known in advance.
   *  - `Null`: the JSON value null;
   *  - `Prim`: any other non-object (undefined, a boolean, a number, a string),
   *    recorded only by whether JavaScript considers it truthy;
   *  - `Arr`: a bare array of records;
   *  - `Obj`: a non-array object, with the value of its `results` key when it
   *    has one (`None` when the key is absent).
   */
  datatype Data<T> =
    | Null
    | Prim(truthy: bool)
    | Arr(items: seq<T>)
    | Obj(results: Option<Data<T>>)

  /** JavaScript truthiness of a body: arrays and objects are always truthy. */
  predicate Truthy<T>(d: Data<T>)
  {
    match d
    case Null => false
    case Prim(t) => t
    case Arr(_) => true
    case Obj(_) => true
  }

  /** `s || fallback` for an optional string: the empty string is falsy. */
  function OrElse(s: Option<string>, fallback: string): (r: string)
    ensures s.Some? && s.value != [] ==> r == s.value
    ensures s.None? || s.value == [] ==> r == fallback
  {
    if s.Some? && s.value != [] then s.value else fallback
  }
}
