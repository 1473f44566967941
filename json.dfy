/**
 * JavaScript values as the route handlers see them after `request.json()`:
 * the JSON values plus `undefined`, which is what reading an absent property yields.
 * Numbers are reals. JSON text cannot encode NaN, so the only falsy number that can
 * reach the handlers is 0; a literal too large for a double (`1e400`) parses to an
 * infinity, which this model does not represent (it keeps the exact real).
 */
module Json {
  import opened Results

  datatype JsValue =
    | JUndefined
    | JNull
    | JBool(b: bool)
    | JNum(n: real)
    | JStr(s: string)
    | JArr(items: seq<JsValue>)
    | JObj(members: seq<(string, JsValue)>)   // in insertion order, as JSON.stringify writes them

  /** The `typeof` operator. */
  function TypeOf(v: JsValue): (t: string)
    ensures t == "object" <==> v.JNull? || v.JArr? || v.JObj?
    ensures t == "undefined" <==> v.JUndefined?
    ensures t in {"undefined", "object", "boolean", "number", "string"}
  {
    match v
    case JUndefined => "undefined"
    case JNull => "object"
    case JBool(_) => "boolean"
    case JNum(_) => "number"
    case JStr(_) => "string"
    case JArr(_) => "object"
    case JObj(_) => "object"
  }

  /** `typeof v === 'number'` holds exactly of the numbers. */
  lemma TypeOfNumber(v: JsValue)
    ensures TypeOf(v) == "number" <==> v.JNum?
  {
  }

  /** JavaScript truthiness: false, 0, "", null and undefined are falsy. */
  predicate Truthy(v: JsValue): (b: bool)
    ensures Nullish(v) ==> !b
    ensures v.JArr? || v.JObj? ==> b
  {
    match v
    case JUndefined => false
    case JNull => false
    case JBool(b) => b
    case JNum(n) => n != 0.0
    case JStr(s) => s != ""
    case JArr(_) => true
    case JObj(_) => true
  }

  /** The `a || b` operator: the left operand when it is truthy, otherwise the right one. */
  function Or(a: JsValue, b: JsValue): (r: JsValue)
    ensures r == a || r == b
    ensures Truthy(r) <==> Truthy(a) || Truthy(b)
    ensures Truthy(a) ==> r == a
    ensures !Truthy(a) ==> r == b
  {
    if Truthy(a) then a else b
  }

  /** `null` and `undefined`, the two values whose properties cannot be read. */
  predicate Nullish(v: JsValue)
  {
    v.JUndefined? || v.JNull?
  }

  /** Member `i` is the last member named `key`. */
  predicate LastNamed(members: seq<(string, JsValue)>, key: string, i: int)
  {
    0 <= i < |members| && members[i].0 == key &&
    forall j :: i < j < |members| ==> members[j].0 != key
  }

  /**
   * The value of property `key` of an object given by its members. When JSON.parse
   * meets a key twice the later member wins, so the lookup takes the last match.
   */
  function Lookup(members: seq<(string, JsValue)>, key: string): (v: JsValue)
    ensures (forall i :: 0 <= i < |members| ==> members[i].0 != key) ==> v == JUndefined
    ensures forall i :: LastNamed(members, key, i) ==> v == members[i].1
    decreases |members|
  {
    if |members| == 0 then JUndefined
    else if members[|members| - 1].0 == key then members[|members| - 1].1
    else
      var front := members[..|members| - 1];
      assert forall i :: LastNamed(members, key, i) ==> LastNamed(front, key, i);
      Lookup(front, key)
  }

  /**
   * `v[key]` on a value that is not null or undefined, for the keys this model reads
   * (`sandLevel`, `samplingRate`, `sampleInterval`, `timestamp`, `message`, `data`, `error`),
   * which no built-in prototype defines:
   * an object answers with its member, every other value with undefined.
   */
  function Property(v: JsValue, key: string): (r: JsValue)
    requires !Nullish(v)
    ensures !v.JObj? ==> r == JUndefined
  {
    if v.JObj? then Lookup(v.members, key) else JUndefined
  }

  /** The message of the TypeError that reading a property of null or undefined throws (V8's wording). */
  function ReadErrorMessage(v: JsValue, key: string): string
    requires Nullish(v)
  {
    "Cannot read properties of " + (if v.JNull? then "null" else "undefined") + " (reading '" + key + "')"
  }

  /** `v.key` as an expression that may throw: reading from null or undefined fails with a TypeError. */
  function Field(v: JsValue, key: string): (r: Result<JsValue, string>)
    ensures r.Failure? <==> Nullish(v)
    ensures r.Success? ==> r.value == Property(v, key)
  {
    if Nullish(v) then Failure(ReadErrorMessage(v, key)) else Success(Property(v, key))
  }
}
