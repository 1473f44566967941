/**
 * The Fetch API `Response` objects the route handlers build: a status, a header
 * map and a body. A body built from `JSON.stringify(v)` is kept as the value `v`.
 */
module Http {
  import opened Json

  datatype Body =
    | NoBody                    // `new Response(null, ...)`
    | Text(text: string)        // a plain string body
    | JsonText(value: JsValue)  // the string `JSON.stringify(value)`

  datatype Response = Response(status: int, headers: map<string, string>, body: Body)

  const ContentType := "Content-Type"
  const AllowOrigin := "Access-Control-Allow-Origin"
  const AllowMethods := "Access-Control-Allow-Methods"
  const AllowHeaders := "Access-Control-Allow-Headers"
  const CacheControl := "Cache-Control"

  const ApplicationJson := "application/json"
  /** The type the Fetch Standard's "extract a body" step gives a string body. */
  const TextPlain := "text/plain;charset=UTF-8"
  /** The status of a `Response` whose init object gives none. */
  const DefaultStatus := 200

  /**
   * `new Response(body, {status, headers})`. Every body here is a string or null;
   * a string body whose headers name no Content-Type gets the text/plain one.
   */
  function NewResponse(body: Body, status: int, headers: map<string, string>): (r: Response)
    ensures r.status == status && r.body == body
    ensures r.headers.Keys == headers.Keys + (if body.NoBody? then {} else {ContentType})
    ensures forall name :: name in headers ==> r.headers[name] == headers[name]
    ensures !body.NoBody? && ContentType !in headers ==> r.headers[ContentType] == TextPlain
  {
    if !body.NoBody? && ContentType !in headers then Response(status, headers[ContentType := TextPlain], body)
    else Response(status, headers, body)
  }

  /** The response lets a page of any origin read it. */
  predicate AllowsAnyOrigin(r: Response)
  {
    AllowOrigin in r.headers && r.headers[AllowOrigin] == "*"
  }

  /** A CORS pre-flight answer: 204, no body, any origin, the given methods and request headers. */
  predicate Preflight(r: Response, methods: string, requestHeaders: string)
  {
    && r.status == 204
    && r.body == NoBody
    && AllowsAnyOrigin(r)
    && r.headers.Keys == {AllowOrigin, AllowMethods, AllowHeaders}
    && r.headers[AllowMethods] == methods
    && r.headers[AllowHeaders] == requestHeaders
  }
}
