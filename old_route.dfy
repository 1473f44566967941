/**
 * The push-ingestion route of `old-route.ts`: one in-memory reading that POST
 * replaces after validation and GET serves back, every answer open to any origin.
 */
module OldRoute {
  import opened Results
  import opened Json
  import opened Http
  import opened Ingest

  const UpdatedMessage := "Sensor data updated successfully"
  const FailedText := "Failed to update sensor data"

  /** The body of a successful POST: `{message: "Sensor data updated successfully"}`. */
  function UpdatedBody(): (v: JsValue)
    ensures !Nullish(v)
    ensures Property(v, "message") == JStr(UpdatedMessage)
  {
    var members := [("message", JStr(UpdatedMessage))];
    assert LastNamed(members, "message", 0);
    JObj(members)
  }

  /** The module-level `latestSensorData` slot and the two handlers that use it. */
  class Store {
    var latestSensorData: Record

    ghost predicate Valid()
      reads this
    {
      latestSensorData.WellFormed()
    }

    /** Module load: the zero reading with default rates, stamped `now0`. */
    constructor (now0: int)
      ensures Valid()
      ensures latestSensorData == Initial(now0)
    {
      latestSensorData := Initial(now0);
    }

    /** GET: the stored reading as JSON, with CORS; the store is only read. */
    method Get() returns (resp: Response)
      ensures resp.status == 200
      ensures resp.body == JsonText(ToJson(latestSensorData))
      ensures AllowsAnyOrigin(resp)
      ensures resp.headers.Keys == {ContentType, AllowOrigin} && resp.headers[ContentType] == ApplicationJson
    {
      resp := NewResponse(JsonText(ToJson(latestSensorData)), DefaultStatus,
                          map[ContentType := ApplicationJson, AllowOrigin := "*"]);
    }

    /**
     * POST: a numeric sandLevel replaces all four fields in one assignment and
     * answers 200; anything else leaves the store alone and answers 500 with a
     * plain-text message.
     */
    method Post(request: RequestBody, now: int) returns (resp: Response)
      requires Valid()
      modifies this
      ensures Valid()
      ensures AllowsAnyOrigin(resp)
      ensures resp.status == 200 <==> HasNumericSandLevel(request)
      ensures HasNumericSandLevel(request) ==>
        && latestSensorData == Accept(request, now).value
        && resp.body == JsonText(UpdatedBody())
        && resp.headers.Keys == {ContentType, AllowOrigin} && resp.headers[ContentType] == ApplicationJson
      ensures !HasNumericSandLevel(request) ==>
        && latestSensorData == old(latestSensorData)
        && resp.status == 500
        && resp.body == Text(FailedText)
        && resp.headers.Keys == {ContentType, AllowOrigin} && resp.headers[ContentType] == TextPlain
    {
      var accepted := Accept(request, now);
      if accepted.Success? {
        latestSensorData := accepted.value;
        resp := NewResponse(JsonText(UpdatedBody()), DefaultStatus,
                            map[ContentType := ApplicationJson, AllowOrigin := "*"]);
      } else {
        resp := NewResponse(Text(FailedText), 500, map[AllowOrigin := "*"]);
      }
    }
  }

  /** OPTIONS: the fixed CORS pre-flight answer. */
  function Options(): (r: Response)
    ensures Preflight(r, "GET, POST, OPTIONS", "Content-Type")
  {
    NewResponse(NoBody, 204, map[AllowOrigin := "*", AllowMethods := "GET, POST, OPTIONS",
                                 AllowHeaders := "Content-Type"])
  }

  /**
   * A device pushes `{sandLevel: 12}` and a dashboard then reads the store: the
   * reading it gets has sandLevel 12; a later push of `{sandLevel: "12"}` is
   * refused and the next read still shows 12.
   */
  method PushThenRead(now0: int, now: int) returns (first: Response, refused: Response, second: Response)
    ensures first.status == 200 && first.body.JsonText? && !Nullish(first.body.value)
    ensures Property(first.body.value, "sandLevel") == JNum(12.0)
    ensures refused.status == 500
    ensures second.body == first.body
  {
    var store := new Store(now0);
    NumberAcceptedStringRefused(now);
    var accepted := store.Post(Parsed(JObj([("sandLevel", JNum(12.0))])), now);
    assert accepted.status == 200;
    first := store.Get();
    refused := store.Post(Parsed(JObj([("sandLevel", JStr("12"))])), now + 1);
    second := store.Get();
  }
}
