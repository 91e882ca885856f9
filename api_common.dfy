/** What the section API routes share: the JSON responses they send and the reading of a
    parsed JSON request body by destructuring. */
module ApiCommon {
  import opened Common

  /** The JSON bodies the routes answer with. */
  datatype ResponseBody =
    | ErrorBody(error: string)
    | ErrorDetails(error: string, details: seq<string>)
    | SectionsBody(sections: seq<Json>)
    | SectionBody(section: Json)
    | SuccessBody

  datatype Response = Response(status: nat, body: ResponseBody)

  const Unauthorized: Response := Response(401, ErrorBody("Unauthorized"))

  const Forbidden: Response := Response(403, ErrorBody("Forbidden"))

  /** The answer of every route's `catch`. */
  const InternalError: Response := Response(500, ErrorBody("Internal server error"))

  /** What `const { a, b } = body` sees: an object's own fields, no fields at all for any
      other non-null value, and None for `null`, where destructuring throws. */
  function BodyFields(body: Json): (r: Option<map<string, Json>>)
    ensures r.None? <==> body.JNull?
  {
    match body
    case JObject(fields) => Some(fields)
    case JNull => None
    case _ => Some(map[])
  }

  /** A destructured field; None is `undefined`. */
  function Field(fields: map<string, Json>, key: string): Option<Json> {
    if key in fields then Some(fields[key]) else None
  }

  /** JavaScript truthiness of a destructured field. */
  predicate FieldTruthy(o: Option<Json>) {
    o.Some? && JsonTruthy(o.value)
  }

  /** The row id a value selects with `.eq('id', value)`: only a string can match a key;
      any other value fails the lookup. */
  function AsKey(o: Option<Json>): Option<string> {
    if o.Some? && o.value.JString? then Some(o.value.s) else None
  }
}
