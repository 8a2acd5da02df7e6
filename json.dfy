/**
 * JSON documents as the function sees them after Newtonsoft deserialisation,
 * and the conversions the function applies to them.
 */
module JsonValues {
  import opened Wrappers

  datatype Json =
    | JNull
    | JBool(b: bool)
    | JNumber(n: real)
    | JString(s: string)
    | JArray(items: seq<Json>)
    | JObject(members: map<string, Json>)

  /** The exceptions the modelled code can raise outside any `try`. */
  datatype Exception =
    | KeyNotFound(key: string)  // indexing a dictionary with a missing key
    | InvalidCast               // a value that is not a JSON object cast to JObject, or not convertible
    | Argument                  // a JSON null token converted to a double
    | Format                    // a string token converted to a double
    | NullReference             // a member access on a null reference

  /** `obj[key]` on a JObject: the token, or C# null when the key is missing. */
  function Member(obj: map<string, Json>, key: string): Option<Json>
  {
    if key in obj then Some(obj[key]) else None
  }

  /**
   * `Convert.ToDouble(object)` applied to a token that may be C# null.
   * A missing token is 0.0; numbers and booleans convert; a JSON null,
   * an array or an object throws. String tokens are always a failure here:
   * the invariant-culture parser that converts numeric strings is not
   * modelled.
   */
  function ToDouble(token: Option<Json>): (r: Result<real, Exception>)
    ensures r.Ok? <==> token.None? || token.value.JNumber? || token.value.JBool?
    ensures token.None? ==> r == Ok(0.0)
    ensures token.Some? && token.value.JNumber? ==> r == Ok(token.value.n)
    ensures token.Some? && token.value.JBool? ==> r == Ok(if token.value.b then 1.0 else 0.0)
    ensures token == Some(JNull) ==> r == Err(Argument)
    ensures token.Some? && token.value.JString? ==> r == Err(Format)
  {
    match token
    case None => Ok(0.0)
    case Some(JNumber(n)) => Ok(n)
    case Some(JBool(b)) => Ok(if b then 1.0 else 0.0)
    case Some(JString(_)) => Err(Format)
    case Some(JNull) => Err(Argument)
    case Some(JArray(_)) => Err(InvalidCast)
    case Some(JObject(_)) => Err(InvalidCast)
  }

  /**
   * `(JObject)JsonConvert.DeserializeObject(value.ToString())`, with the
   * text round trip taken as the identity: a JSON object is cast to its
   * members, a null value fails in `ToString`, and every other value,
   * including a string holding the text of an object, fails the cast.
   */
  function AsObject(value: Json): (r: Result<map<string, Json>, Exception>)
    ensures r.Ok? <==> value.JObject?
    ensures r.Ok? ==> JObject(r.value) == value
    ensures value == JNull ==> r == Err(NullReference)
  {
    match value
    case JObject(m) => Ok(m)
    case JNull => Err(NullReference)
    case _ => Err(InvalidCast)
  }
}
