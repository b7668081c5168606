/** What the two API routes see of an HTTP exchange: the parsed request
    body and the JSON response they build with `NextResponse.json`. */
module Http {
  import opened Js

  /** `await request.json()`: either it throws (the body is not JSON) or it
      yields a value. */
  datatype Incoming = Unparseable | Parsed(json: Value)

  /** The route's response: a JSON body with a status (200 unless given),
      or an exception that escapes the handler, which the framework turns
      into an error page that is not JSON. */
  datatype Response = Json(status: int, body: Value) | Unhandled

  /** `{ message: m }`. */
  function MessageBody(m: string): (b: Value)
    ensures b.Obj? && b.fields.Keys == {"message"} && b.fields["message"] == Str(m)
  {
    Obj(map["message" := Str(m)])
  }
}
