/**
 * The push-ingestion route of `routes.ts`: the same validate-then-replace POST,
 * which here echoes the stored record; a GET that serves generated data without
 * looking at the store; and a pre-flight that also admits `Authorization`.
 */
module Routes {
  import opened Results
  import opened Json
  import opened Http
  import opened Ingest

  const UpdatedMessage := "Data updated successfully"
  const NotANumberMessage := "Invalid data format: sandLevel must be a number"
  const InternalError := "Internal Server Error"

  /** The message of the error POST's catch block reports. */
  function RejectionMessage(why: Rejection): (m: string)
    ensures why.Thrown? ==> m == why.message
    ensures why.NotANumber? ==> m == NotANumberMessage
  {
    match why
    case Thrown(message) => message
    case NotANumber => NotANumberMessage
  }

  /** The body of a successful POST: the message and the record just stored. */
  function UpdatedBody(stored: Record): (v: JsValue)
    ensures !Nullish(v)
    ensures Property(v, "message") == JStr(UpdatedMessage)
    ensures Property(v, "data") == ToJson(stored)
  {
    var members := [("message", JStr(UpdatedMessage)), ("data", ToJson(stored))];
    assert LastNamed(members, "message", 0);
    assert LastNamed(members, "data", 1);
    JObj(members)
  }

  /** The body of a refused POST: `{error: message}`. */
  function ErrorBody(message: string): (v: JsValue)
    ensures !Nullish(v)
    ensures Property(v, "error") == JStr(message)
  {
    var members := [("error", JStr(message))];
    assert LastNamed(members, "error", 0);
    JObj(members)
  }

  /** The module-level `latestSensorData` slot, written by POST and read by nothing else. */
  class Store {
    var latestSensorData: Record

    ghost predicate Valid()
      reads this
    {
      latestSensorData.WellFormed()
    }

    /** Module load: the zero reading with default rates, stamped `now0`. */
    constructor (now0: int)
      ensures Valid()
      ensures latestSensorData == Initial(now0)
    {
      latestSensorData := Initial(now0);
    }

    /**
     * POST: a numeric sandLevel replaces all four fields in one assignment and
     * the 200 answer echoes the new record; anything else leaves the store alone
     * and answers 500 with `{error}`.
     */
    method Post(request: RequestBody, now: int) returns (resp: Response)
      requires Valid()
      modifies this
      ensures Valid()
      ensures AllowsAnyOrigin(resp)
      ensures resp.headers.Keys == {ContentType, AllowOrigin} && resp.headers[ContentType] == ApplicationJson
      ensures resp.status == 200 <==> HasNumericSandLevel(request)
      ensures HasNumericSandLevel(request) ==>
        && latestSensorData == Accept(request, now).value
        && resp.body == JsonText(UpdatedBody(latestSensorData))
      ensures !HasNumericSandLevel(request) ==>
        && latestSensorData == old(latestSensorData)
        && resp.status == 500
        && resp.body == JsonText(ErrorBody(RejectionMessage(Accept(request, now).error)))
    {
      var accepted := Accept(request, now);
      if accepted.Success? {
        latestSensorData := accepted.value;
        resp := NewResponse(JsonText(UpdatedBody(latestSensorData)), 200,
                            map[ContentType := ApplicationJson, AllowOrigin := "*"]);
      } else {
        resp := NewResponse(JsonText(ErrorBody(RejectionMessage(accepted.error))), 500,
                            map[ContentType := ApplicationJson, AllowOrigin := "*"]);
      }
    }
  }

  /**
   * GET: a generated reading, never the stored one. `level` is
   * `Math.floor(Math.random() * 1000)` and `now` is `Date.now()`; the rates
   * are always the defaults and the answer must not be cached.
   */
  function Get(level: int, now: int): (r: Response)
    requires 0 <= level < 1000
    ensures r.status == 200 && AllowsAnyOrigin(r)
    ensures r.headers.Keys == {ContentType, AllowOrigin, CacheControl}
    ensures r.headers[ContentType] == ApplicationJson && r.headers[CacheControl] == "no-store"
    ensures r.body.JsonText? && !Nullish(r.body.value)
    ensures Property(r.body.value, "samplingRate") == JNum(1.0)
    ensures Property(r.body.value, "sampleInterval") == JNum(1000.0)
    ensures Property(r.body.value, "sandLevel") == JNum(level as real)
    ensures Property(r.body.value, "timestamp") == JNum(now as real)
  {
    var data := ToJson(Record(level as real, JNum(1.0), JNum(1000.0), now));
    assert LastNamed(data.members, "sandLevel", 0);
    assert LastNamed(data.members, "samplingRate", 1);
    assert LastNamed(data.members, "sampleInterval", 2);
    assert LastNamed(data.members, "timestamp", 3);
    NewResponse(JsonText(data), 200,
                map[ContentType := ApplicationJson, AllowOrigin := "*", CacheControl := "no-store"])
  }

  /** The answer GET's catch block builds: 500 with `{error: "Internal Server Error"}`. */
  function GetFailed(): (r: Response)
    ensures r.status == 500 && AllowsAnyOrigin(r)
    ensures r.headers.Keys == {ContentType, AllowOrigin} && r.headers[ContentType] == ApplicationJson
    ensures r.body == JsonText(ErrorBody(InternalError))
  {
    NewResponse(JsonText(ErrorBody(InternalError)), 500, map[ContentType := ApplicationJson, AllowOrigin := "*"])
  }

  /** OPTIONS: the fixed CORS pre-flight answer, admitting `Authorization` too. */
  function Options(): (r: Response)
    ensures Preflight(r, "GET, POST, OPTIONS", "Content-Type, Authorization")
  {
    NewResponse(NoBody, 204, map[AllowOrigin := "*", AllowMethods := "GET, POST, OPTIONS",
                                 AllowHeaders := "Content-Type, Authorization"])
  }

  /** The record a successful POST echoes reads back field by field as the record now stored. */
  lemma EchoReadsBack(stored: Record)
    ensures var data := Property(UpdatedBody(stored), "data");
      && !Nullish(data)
      && Property(data, "sandLevel") == JNum(stored.sandLevel)
      && Property(data, "samplingRate") == stored.samplingRate
      && Property(data, "sampleInterval") == stored.sampleInterval
      && Property(data, "timestamp") == JNum(stored.timestamp as real)
  {
    var body := UpdatedBody(stored).members;
    assert LastNamed(body, "data", 1);
    var m := ToJson(stored).members;
    assert LastNamed(m, "sandLevel", 0);
    assert LastNamed(m, "samplingRate", 1);
    assert LastNamed(m, "sampleInterval", 2);
    assert LastNamed(m, "timestamp", 3);
  }
}
