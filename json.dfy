/**
 * A JSON-like value, the shape of what the language model returns, together with the
 * two pieces of JavaScript semantics the code applies to it: truthiness and property access.
 */
module Json {
  import opened Wrappers

  datatype Json =
    | JNull
    | JBool(b: bool)
    | JNumber(n: real)
    | JString(s: string)
    | JArray(items: seq<Json>)
    | JObject(fields: map<string, Json>)

  /** Reading a property of `null` throws a TypeError in JavaScript. */
  datatype TypeError = CannotReadPropertyOfNull(key: string)

  /**
   * `v.key` for a key that is not a built-in property: the field of an object, `undefined`
   * (None) for any other non-null value, and a TypeError for null.
   */
  function Property(v: Json, key: string): (r: Result<Option<Json>, TypeError>)
    ensures r.Failure? <==> v.JNull?
    ensures v.JObject? ==> r == Success(if key in v.fields then Some(v.fields[key]) else None)
    ensures !v.JObject? && !v.JNull? ==> r == Success(None)
  {
    match v
    case JNull => Failure(CannotReadPropertyOfNull(key))
    case JObject(fields) => Success(if key in fields then Some(fields[key]) else None)
    case _ => Success(None)
  }

  /** JavaScript truthiness; None stands for `undefined`. */
  predicate Truthy(v: Option<Json>)
  {
    match v
    case None => false
    case Some(JNull) => false
    case Some(JBool(b)) => b
    case Some(JNumber(n)) => n != 0.0
    case Some(JString(s)) => s != ""
    case Some(JArray(_)) => true
    case Some(JObject(_)) => true
  }

  /** `a || b`: a when it is truthy, otherwise b. */
  function Or(a: Option<Json>, b: Json): (r: Json)
    ensures Truthy(a) ==> Some(r) == a
    ensures !Truthy(a) ==> r == b
  {
    if Truthy(a) then a.value else b
  }
}
