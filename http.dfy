/** The JSON values that the controllers put into their responses. */
module Json {
  import opened Wrappers

  /**
   * A point in time as PHP's `DateTime` holds it. Its inner structure plays no
   * part in any decision the controllers take, so it is left abstract.
   */
  type Instant(==, !new)

  /**
   * A JSON value. `JInstant` is a date-time that is rendered in the ATOM
   * format (`Y-m-d\TH:i:sP`) on output.
   */
  datatype Json =
    | JNull
    | JBool(b: bool)
    | JInt(n: int)
    | JString(s: string)
    | JInstant(t: Instant)
    | JList(items: seq<Json>)
    | JObject(fields: map<string, Json>)

  /** A nullable string column: `null` or the string. */
  function NullableString(o: Option<string>): (j: Json)
    ensures j == JNull <==> o.None?
    ensures o.Some? ==> j == JString(o.value)
  {
    if o.Some? then JString(o.value) else JNull
  }

  /** A nullable date-time column: `null` or the ATOM rendering of the instant. */
  function NullableInstant(o: Option<Instant>): (j: Json)
    ensures j == JNull <==> o.None?
    ensures o.Some? ==> j == JInstant(o.value)
  {
    if o.Some? then JInstant(o.value) else JNull
  }

  /** A list of ids, as `getPlatforms`, `getRelated` and `getCases` return them. */
  function IntList(ids: seq<int>): (j: Json)
    ensures j.JList? && |j.items| == |ids|
    ensures forall k :: 0 <= k < |ids| ==> j.items[k] == JInt(ids[k])
  {
    JList(seq(|ids|, k requires 0 <= k < |ids| => JInt(ids[k])))
  }

  /** `array_map(fn($x) => $x->jsonSerialize(), $rows)`: one object per element, in order. */
  function ObjectList<T>(xs: seq<T>, project: T -> map<string, Json>): (j: Json)
    ensures j.JList? && |j.items| == |xs|
    ensures forall k :: 0 <= k < |xs| ==> j.items[k] == JObject(project(xs[k]))
  {
    JList(seq(|xs|, k requires 0 <= k < |xs| => JObject(project(xs[k]))))
  }
}

/** The part of a `DataResponse` the controllers decide: its status and its body. */
module Http {
  import opened Json

  const OK: int := 200
  const CREATED: int := 201
  const BAD_REQUEST: int := 400
  const NOT_FOUND: int := 404

  datatype Response = Response(status: int, data: map<string, Json>)

  /** `new DataResponse($data)`: status 200. */
  function Ok(data: map<string, Json>): Response {
    Response(OK, data)
  }

  /** `new DataResponse($data, Http::STATUS_CREATED)`. */
  function Created(data: map<string, Json>): Response {
    Response(CREATED, data)
  }

  /** `new DataResponse(['error' => $message], $status)`. */
  function Error(status: int, message: string): Response {
    Response(status, map["error" := JString(message)])
  }

  /** The body of every successful delete: `{deleted: true}`. */
  const Deleted: map<string, Json> := map["deleted" := JBool(true)]
}
