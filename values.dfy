/** JSON values as the browser and the Express server see them, with JavaScript's
    notion of truthiness, which both sides use to decide their branches. */
module Values {

  /** An optional value; `None` stands for JavaScript's `undefined`
      (a property that is absent from an object). */
  datatype Option<T> = None | Some(value: T)

  /** A parsed JSON value. JSON numbers are modelled as integers only. */
  datatype Json =
    | JNull
    | JBool(b: bool)
    | JNum(n: int)
    | JStr(s: string)
    | JArr(items: seq<Json>)
    | JObj(fields: map<string, Json>)

  /** JavaScript truthiness: `null`, `false`, `0` and `''` are falsy, everything
      else (including every array and object) is truthy. */
  predicate Truthy(v: Json) {
    match v
    case JNull => false
    case JBool(b) => b
    case JNum(n) => n != 0
    case JStr(s) => s != ""
    case JArr(_) => true
    case JObj(_) => true
  }

  /** Truthiness of a property read `obj.key`, where an absent key is `undefined`. */
  predicate Present(v: Option<Json>) {
    v.Some? && Truthy(v.value)
  }

  /** The property read `obj.key` on a JSON object. */
  function Lookup(obj: map<string, Json>, key: string): Option<Json> {
    if key in obj then Some(obj[key]) else None
  }

  /** JavaScript's `a || b` where `a` is a property read: `a` when it is truthy, otherwise `b`. */
  function OrElse(a: Option<Json>, b: Json): Json {
    if Present(a) then a.value else b
  }
}
