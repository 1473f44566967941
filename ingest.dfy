/**
 * The push-ingestion step that both route variants share (old-route.ts and
 * routes.ts run the same lines): parse the request body, insist that `sandLevel`
 * is a number, and build the whole replacement record, defaulting falsy
 * `samplingRate` and `sampleInterval` with `||`.
 */
module Ingest {
  import opened Results
  import opened Json

  /** What `await request.json()` produced: a value, or the message of the error it threw. */
  datatype RequestBody = Unparsable(message: string) | Parsed(data: JsValue)

  /** Why a push was refused: an error thrown while reading the body, or a non-numeric sandLevel. */
  datatype Rejection = Thrown(message: string) | NotANumber

  /**
   * The stored reading `latestSensorData`. `||` keeps whatever truthy value was
   * sent, so the two rate fields hold JavaScript values, not only numbers.
   */
  datatype Record = Record(sandLevel: real, samplingRate: JsValue, sampleInterval: JsValue, timestamp: int)
  {
    /** Neither rate field can be falsy: a falsy input is replaced by its default. */
    predicate WellFormed()
    {
      Truthy(samplingRate) && Truthy(sampleInterval)
    }
  }

  const DefaultSamplingRate := JNum(1.0)
  const DefaultSampleInterval := JNum(1000.0)

  /** The module-level record at start-up, stamped with the start-up time. */
  function Initial(now0: int): (r: Record)
    ensures r.WellFormed()
    ensures r.sandLevel == 0.0 && r.timestamp == now0
    ensures r.samplingRate == JNum(1.0) && r.sampleInterval == JNum(1000.0)
  {
    Record(0.0, DefaultSamplingRate, DefaultSampleInterval, now0)
  }

  /**
   * The object `JSON.stringify` serialises for a record, fields in declaration order:
   * reading each key back gives the record's field.
   */
  function ToJson(r: Record): (v: JsValue)
    ensures v.JObj? && |v.members| == 4 && !Nullish(v)
    ensures Property(v, "sandLevel") == JNum(r.sandLevel)
    ensures Property(v, "samplingRate") == r.samplingRate
    ensures Property(v, "sampleInterval") == r.sampleInterval
    ensures Property(v, "timestamp") == JNum(r.timestamp as real)
  {
    var members := [("sandLevel", JNum(r.sandLevel)), ("samplingRate", r.samplingRate),
                    ("sampleInterval", r.sampleInterval), ("timestamp", JNum(r.timestamp as real))];
    assert LastNamed(members, "sandLevel", 0);
    assert LastNamed(members, "samplingRate", 1);
    assert LastNamed(members, "sampleInterval", 2);
    assert LastNamed(members, "timestamp", 3);
    JObj(members)
  }

  /** The `typeof data.sandLevel !== 'number'` test passes: the body is readable and its sandLevel is a number. */
  predicate HasNumericSandLevel(body: RequestBody)
  {
    body.Parsed? && !Nullish(body.data) && TypeOf(Property(body.data, "sandLevel")) == "number"
  }

  /**
   * Validate a pushed body and build the record that replaces the stored one,
   * stamped with `now` (`Date.now()`).
   */
  function Accept(body: RequestBody, now: int): (r: Result<Record, Rejection>)
    ensures r.Success? <==> HasNumericSandLevel(body)
    ensures r.Success? ==>
      var data := body.data;
      && r.value.WellFormed()
      && JNum(r.value.sandLevel) == Property(data, "sandLevel")
      && r.value.samplingRate == (if Truthy(Property(data, "samplingRate")) then Property(data, "samplingRate") else JNum(1.0))
      && r.value.sampleInterval == (if Truthy(Property(data, "sampleInterval")) then Property(data, "sampleInterval") else JNum(1000.0))
      && r.value.timestamp == now
    ensures body.Unparsable? ==> r == Failure(Thrown(body.message))
    ensures body.Parsed? && Nullish(body.data) ==> r == Failure(Thrown(ReadErrorMessage(body.data, "sandLevel")))
    ensures body.Parsed? && !Nullish(body.data) && !HasNumericSandLevel(body) ==> r == Failure(NotANumber)
  {
    match body
    case Unparsable(message) => Failure(Thrown(message))
    case Parsed(data) =>
      match Field(data, "sandLevel")
      case Failure(message) => Failure(Thrown(message))
      case Success(level) =>
        if TypeOf(level) != "number" then Failure(NotANumber)
        else
          TypeOfNumber(level);
          Success(Record(level.n,
                         Or(Property(data, "samplingRate"), DefaultSamplingRate),
                         Or(Property(data, "sampleInterval"), DefaultSampleInterval),
                         now))
  }

  /**
   * Pushing back what a GET served stores the same reading again: a stored record,
   * serialised and re-ingested, comes back unchanged apart from its new timestamp.
   */
  lemma ReingestKeepsReading(r: Record, now: int)
    requires r.WellFormed()
    ensures Accept(Parsed(ToJson(r)), now) == Success(r.(timestamp := now))
  {
    var m := ToJson(r).members;
    assert LastNamed(m, "sandLevel", 0);
    assert LastNamed(m, "samplingRate", 1);
    assert LastNamed(m, "sampleInterval", 2);
  }

  /** `{sandLevel: 12}` is accepted with the defaults; `{sandLevel: "12"}` is refused. */
  lemma NumberAcceptedStringRefused(now: int)
    ensures Accept(Parsed(JObj([("sandLevel", JNum(12.0))])), now) == Success(Record(12.0, JNum(1.0), JNum(1000.0), now))
    ensures Accept(Parsed(JObj([("sandLevel", JStr("12"))])), now) == Failure(NotANumber)
  {
    assert LastNamed([("sandLevel", JNum(12.0))], "sandLevel", 0);
    assert LastNamed([("sandLevel", JStr("12"))], "sandLevel", 0);
  }
}
