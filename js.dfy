/**
 * The JavaScript values the movie normaliser touches: `undefined`, or a
 * JSON value as `response.json()` produces it, and the `TypeError` that a
 * property read or call on the wrong kind of value throws.
 */
module Js {
  import opened Wrappers

  /** A parsed JSON document. Numbers are modelled as integers. */
  datatype Json =
    | Null
    | Bool(b: bool)
    | Num(n: int)
    | Str(s: string)
    | Arr(elems: seq<Json>)
    | Obj(props: map<string, Json>)

  /** A JavaScript value reachable from a parsed document. */
  datatype Value = Undefined | Defined(json: Json)

  predicate Nullish(v: Value) {
    v == Undefined || v == Defined(Null)
  }

  /** The TypeErrors the normaliser can throw. */
  datatype TypeError =
    | CannotRead(target: Value, key: string)  // `target.key` with `target` null or undefined
    | NotAFunction(callee: string)            // a call of a value that is not a function

  /**
   * The property read `v.key`. It throws on null and undefined; an object
   * yields its own property or undefined; arrays, strings, numbers and
   * booleans have no property named by any key the normaliser reads
   * (`results`, `episode_id`, `title`, `opening_crawl`, `release_date`).
   */
  function Get(v: Value, key: string): (r: Result<Value, TypeError>)
    ensures r.Err? <==> Nullish(v)
    ensures r.Err? ==> r.error == CannotRead(v, key)
    ensures r.Ok? ==>
      r.value == (if v.json.Obj? && key in v.json.props then Defined(v.json.props[key]) else Undefined)
  {
    match v
    case Undefined => Err(CannotRead(v, key))
    case Defined(Null) => Err(CannotRead(v, key))
    case Defined(Obj(props)) => Ok(if key in props then Defined(props[key]) else Undefined)
    case Defined(_) => Ok(Undefined)
  }

  /**
   * The `message` of a TypeError, in the wording of the V8 engine. Every
   * such message is non-empty, so it is truthy once stored as `error`.
   */
  function Message(e: TypeError): (m: string)
    ensures |m| > 0
  {
    match e
    case CannotRead(target, key) =>
      "Cannot read properties of " + (if target == Undefined then "undefined" else "null")
      + " (reading '" + key + "')"
    case NotAFunction(callee) => callee + " is not a function"
  }
}
