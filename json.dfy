/** JSON values as a JavaScript handler sees them after `JSON.parse`, with the
    JavaScript notions the handlers rely on: truthiness and property access. */
module Json {
  import opened Common

  /** Numbers are integers here (fractions and NaN are not modelled). */
  datatype Json =
    | JNull
    | JBool(b: bool)
    | JNum(n: int)
    | JStr(s: string)
    | JArr(items: seq<Json>)
    | JObj(fields: map<string, Json>)

  /** JavaScript truthiness; `None` stands for `undefined`. */
  predicate Truthy(v: Option<Json>)
  {
    match v
    case None => false
    case Some(JNull) => false
    case Some(JBool(b)) => b
    case Some(JNum(n)) => n != 0
    case Some(JStr(s)) => s != ""
    case Some(_) => true
  }

  /** Property access `v.key` on a value that is neither null nor undefined:
      only an object has own properties named by the request fields. */
  function Member(v: Json, key: string): (r: Option<Json>)
    ensures r.Some? <==> v.JObj? && key in v.fields
    ensures r.Some? ==> r.value == v.fields[key]
  {
    if v.JObj? && key in v.fields then Some(v.fields[key]) else None
  }

  /** The outcome of `await req.json()`: it throws on a body that is not JSON. */
  datatype Body = Unparsable(message: string) | Parsed(value: Json)

  /** `const {…} = await req.json()` succeeds: the body parsed and is not
      `null` (other values destructure, with every field undefined unless
      the value is an object). */
  predicate Destructurable(body: Body)
  {
    body.Parsed? && body.value != JNull
  }

  /** The message of the TypeError thrown when a handler destructures a
      `null` body (the engine's exact wording is not modelled). */
  const NullBodyMessage := "Cannot destructure property of null"
}
