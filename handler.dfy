/**
 * The device-query HTTP handler `lambdaHandler` of
 * timestream-test/app.ts, as a function from the request parameters and the
 * outcome of the upstream query to the response. The handler first decides
 * (`Plan`) whether to reject the request or which query to run, then shapes
 * the upstream outcome into a response (`Respond`).
 */
module Handler {
  import opened Wrappers
  import opened Text
  import opened Validation
  import opened DeviceQuery
  import opened Rows

  /**
   * The inputs the handler reads: `timeWindow` and `ids` from the query
   * string and `deviceId` from the path; `None` where the parameter (or the
   * whole parameter map) is missing.
   */
  datatype Request = Request(timeWindow: Option<string>, ids: Option<string>, deviceId: Option<string>)

  /**
   * What the upstream query call produced: the rows of its answer, or a
   * thrown value, with its `message` when it is an `Error` and `None` when
   * it is anything else.
   */
  datatype Upstream = Answered(rows: seq<Row>) | Threw(errorMessage: Option<string>)

  /** The JSON body, field by field; `multiData` and `singleData` are both the `data` field. */
  datatype Body =
    | ErrorBody(message: string)
    | MultiDeviceBody(message: string, deviceIds: seq<string>, timeWindow: string, multiData: seq<MultiRecord>)
    | SingleDeviceBody(message: string, deviceId: string, timeWindow: string, singleData: seq<SingleRecord>)
    | FailureBody(message: string, error: string)

  /** An HTTP response; `headers` is `None` where the response object has no headers. */
  datatype Response = Response(statusCode: int, headers: Option<map<string, string>>, body: Body)

  /** The handler's decision before any upstream call. */
  datatype Decision = Reject(response: Response) | Run(query: Query)

  const DefaultTimeWindow := "1m"
  const InvalidTimeWindowMessage := "Invalid time window format. Must be in the format: [number][m|h|d] (e.g., 1m, 2h, 3d)"
  const InvalidIdsMessage := "One or more invalid device IDs. All must be valid UUIDs."
  const InvalidDeviceIdMessage := "Invalid device ID format. Must be a valid UUID."
  const MissingDeviceMessage := "Must provide either deviceId in path or ids in query string"
  const SuccessMessage := "Query executed successfully"
  const QueryErrorMessage := "Error querying Timestream"
  const UnknownError := "Unknown error"
  const JsonCorsHeaders: map<string, string> :=
    map["Content-Type" := "application/json", "Access-Control-Allow-Origin" := "*"]

  /** JavaScript truthiness of an optional string: present and not empty. */
  predicate Truthy(p: Option<string>)
  {
    p.Some? && p.value != ""
  }

  /**
   * `timeWindow || '1m'`: a non-empty request window is kept as it is; the
   * window is never empty, any window other than one minute is the
   * request's own, and it is valid exactly when the request's window is
   * valid or missing or empty.
   */
  function EffectiveTimeWindow(req: Request): (w: string)
    ensures Truthy(req.timeWindow) ==> w == req.timeWindow.value
    ensures w != ""
    ensures w != DefaultTimeWindow ==> req.timeWindow == Some(w)
    ensures IsTimeWindow(w) <==> !Truthy(req.timeWindow) || IsTimeWindow(req.timeWindow.value)
  {
    assert IsTimeWindow(DefaultTimeWindow);
    if Truthy(req.timeWindow) then req.timeWindow.value else DefaultTimeWindow
  }

  /** `ids.every(id => UUID_REGEX.test(id))` */
  function AllMatchUuid(ids: seq<string>): (ok: bool)
    ensures ok <==> forall i :: 0 <= i < |ids| ==> IsUuidV4(ids[i])
  {
    if |ids| == 0 then true
    else
      UuidPatternIsUuidV4(ids[0]);
      UuidPatternTest(ids[0]) && AllMatchUuid(ids[1..])
  }

  function BadRequest(message: string): Response
  {
    Response(400, None, ErrorBody(message))
  }

  /**
   * The decision chain of the handler: the time window first, then `ids`
   * whenever it is present (even empty), then a non-empty `deviceId`. A
   * rejection is a 400; a query is only run on a valid window and on
   * identifiers that are all version 4 UUIDs: every segment of `ids`, in
   * order, or else the path's `deviceId`.
   */
  function Plan(req: Request): (d: Decision)
    ensures d.Reject? ==> d.response.statusCode == 400 && WellFormed(d.response)
    ensures d.Run? ==> d.query.timeWindow == EffectiveTimeWindow(req) && IsTimeWindow(d.query.timeWindow)
    ensures d.Run? && d.query.MultiDevice? ==>
      && req.ids.Some? && d.query.deviceIds == Split(req.ids.value, ',')
      && forall i :: 0 <= i < |d.query.deviceIds| ==> IsUuidV4(d.query.deviceIds[i])
    ensures d.Run? && d.query.SingleDevice? ==>
      req.ids.None? && req.deviceId == Some(d.query.deviceId) && IsUuidV4(d.query.deviceId)
  {
    var window := EffectiveTimeWindow(req);
    TimeWindowPatternIsTimeWindow(window);
    if !TimeWindowPatternTest(window) then Reject(BadRequest(InvalidTimeWindowMessage))
    else match req.ids
      case Some(raw) =>
        var ids := Split(raw, ',');
        if !AllMatchUuid(ids) then Reject(BadRequest(InvalidIdsMessage))
        else Run(MultiDevice(ids, window))
      case None =>
        if !Truthy(req.deviceId) then Reject(BadRequest(MissingDeviceMessage))
        else
          var id := req.deviceId.value;
          UuidPatternIsUuidV4(id);
          if !UuidPatternTest(id) then Reject(BadRequest(InvalidDeviceIdMessage))
          else Run(SingleDevice(id, window))
  }

  /**
   * The response to a query that was run: a well-formed 200 when the
   * upstream call answered, echoing the query's identifiers and window
   * beside one record per row, and a well-formed 500 when it threw.
   */
  function Respond(q: Query, up: Upstream): (r: Response)
    ensures WellFormed(r)
    ensures r.statusCode == (if up.Answered? then 200 else 500)
    ensures up.Answered? && q.MultiDevice? ==>
      r.body.MultiDeviceBody? && r.body.deviceIds == q.deviceIds && r.body.timeWindow == q.timeWindow
      && |r.body.multiData| == |up.rows|
    ensures up.Answered? && q.SingleDevice? ==>
      r.body.SingleDeviceBody? && r.body.deviceId == q.deviceId && r.body.timeWindow == q.timeWindow
      && |r.body.singleData| == |up.rows|
  {
    match up
    case Threw(e) =>
      Response(500, Some(JsonCorsHeaders), FailureBody(QueryErrorMessage, e.GetOr(UnknownError)))
    case Answered(rows) =>
      match q
      case MultiDevice(ids, window) =>
        Response(200, Some(JsonCorsHeaders), MultiDeviceBody(SuccessMessage, ids, window, Map(DecodeMultiRow, rows)))
      case SingleDevice(id, window) =>
        Response(200, Some(JsonCorsHeaders), SingleDeviceBody(SuccessMessage, id, window, Map(DecodeSingleRow, rows)))
  }

  /**
   * The response shapes the handler can produce: a 400 with one of the four
   * validation messages and no headers, a 200 with the success message of
   * either query shape, or a 500 with the failure message; 200 and 500
   * carry the JSON and CORS headers.
   */
  predicate WellFormed(r: Response)
  {
    || (&& r.statusCode == 400 && r.headers == None && r.body.ErrorBody?
        && r.body.message in {InvalidTimeWindowMessage, InvalidIdsMessage, InvalidDeviceIdMessage, MissingDeviceMessage})
    || (&& r.statusCode == 200 && r.headers == Some(JsonCorsHeaders)
        && (r.body.MultiDeviceBody? || r.body.SingleDeviceBody?) && r.body.message == SuccessMessage)
    || (&& r.statusCode == 500 && r.headers == Some(JsonCorsHeaders)
        && r.body.FailureBody? && r.body.message == QueryErrorMessage)
  }

  /**
   * `lambdaHandler`: every request gets a well-formed response; it is a 500
   * exactly when a query was run and the upstream call threw, and a 400
   * exactly when the request was rejected before any query.
   */
  function Handle(req: Request, up: Upstream): (r: Response)
    ensures WellFormed(r)
    ensures r.statusCode == 500 <==> Plan(req).Run? && up.Threw?
    ensures r.statusCode == 400 <==> Plan(req).Reject?
  {
    match Plan(req)
    case Reject(response) => response
    case Run(q) => Respond(q, up)
  }

  // ---------------------------------------------------------------------
  // The decision chain, stated against the positional validity predicates
  // ---------------------------------------------------------------------

  /** A missing or empty window becomes `1m`, which is a valid window. */
  lemma DefaultTimeWindowIsValid(req: Request)
    requires !Truthy(req.timeWindow)
    ensures EffectiveTimeWindow(req) == "1m"
    ensures TimeWindowPatternTest(EffectiveTimeWindow(req))
  {
    TimeWindowPatternIsTimeWindow("1m");
  }

  /**
   * The time window is checked first: an invalid window gets the
   * time-window 400 whatever `ids`, `deviceId` and the upstream hold, and
   * only an invalid window gets it.
   */
  lemma TimeWindowCheckedFirst(req: Request, up: Upstream)
    ensures Handle(req, up) == BadRequest(InvalidTimeWindowMessage) <==> !IsTimeWindow(EffectiveTimeWindow(req))
  {
    TimeWindowPatternIsTimeWindow(EffectiveTimeWindow(req));
  }

  /** A present `ids` parameter decides the branch: `deviceId` is never looked at. */
  lemma IdsTakePriority(req: Request, up: Upstream, deviceId: Option<string>)
    requires req.ids.Some?
    ensures Handle(req.(deviceId := deviceId), up) == Handle(req, up)
  {
    assert EffectiveTimeWindow(req.(deviceId := deviceId)) == EffectiveTimeWindow(req);
  }

  /**
   * The several-devices branch: with a valid window and `ids` present, the
   * request is rejected with the invalid-ids 400 exactly when some
   * comma-separated segment (empty ones included) is not a version 4 UUID;
   * otherwise the query covers the segments in order and the time window,
   * and a successful answer echoes both beside one record per row.
   */
  lemma MultiDeviceBranch(req: Request, up: Upstream)
    requires req.ids.Some? && IsTimeWindow(EffectiveTimeWindow(req))
    ensures var ids := Split(req.ids.value, ',');
      (Handle(req, up) == BadRequest(InvalidIdsMessage) <==> exists i :: 0 <= i < |ids| && !IsUuidV4(ids[i]))
    ensures var ids := Split(req.ids.value, ',');
      (forall i :: 0 <= i < |ids| ==> IsUuidV4(ids[i])) ==>
        && Plan(req) == Run(MultiDevice(ids, EffectiveTimeWindow(req)))
        && InList(Plan(req).query.deviceIds) == Join(Quoted(ids), ",")
        && TimeBound(Plan(req).query) == "time >= ago(" + EffectiveTimeWindow(req) + ")"
        && (up.Answered? ==> Handle(req, up) == Response(200, Some(JsonCorsHeaders),
              MultiDeviceBody(SuccessMessage, ids, EffectiveTimeWindow(req), Map(DecodeMultiRow, up.rows))))
  {
    TimeWindowPatternIsTimeWindow(EffectiveTimeWindow(req));
  }

  /**
   * The single-device branch: with a valid window, no `ids` and a
   * non-empty `deviceId`, the request is rejected with the invalid-device
   * 400 exactly when `deviceId` is not a version 4 UUID; otherwise the
   * query filters on that identifier and the time window, and a successful
   * answer echoes both beside one record per row.
   */
  lemma SingleDeviceBranch(req: Request, up: Upstream)
    requires req.ids.None? && Truthy(req.deviceId) && IsTimeWindow(EffectiveTimeWindow(req))
    ensures Handle(req, up) == BadRequest(InvalidDeviceIdMessage) <==> !IsUuidV4(req.deviceId.value)
    ensures IsUuidV4(req.deviceId.value) ==>
      && Plan(req) == Run(SingleDevice(req.deviceId.value, EffectiveTimeWindow(req)))
      && IdFilter(Plan(req).query) == "id = '" + req.deviceId.value + "'"
      && TimeBound(Plan(req).query) == "time >= ago(" + EffectiveTimeWindow(req) + ")"
      && (up.Answered? ==> Handle(req, up) == Response(200, Some(JsonCorsHeaders),
            SingleDeviceBody(SuccessMessage, req.deviceId.value, EffectiveTimeWindow(req), Map(DecodeSingleRow, up.rows))))
  {
    TimeWindowPatternIsTimeWindow(EffectiveTimeWindow(req));
    UuidPatternIsUuidV4(req.deviceId.value);
  }

  /** With a valid window and neither `ids` nor a non-empty `deviceId`, the request is rejected. */
  lemma NoDeviceRejected(req: Request, up: Upstream)
    requires req.ids.None? && !Truthy(req.deviceId) && IsTimeWindow(EffectiveTimeWindow(req))
    ensures Handle(req, up) == BadRequest(MissingDeviceMessage)
  {
    TimeWindowPatternIsTimeWindow(EffectiveTimeWindow(req));
  }

  /**
   * Once a query is run, an upstream failure gives the 500 with the JSON
   * and CORS headers and the thrown message, or "Unknown error" when the
   * thrown value is not an `Error`.
   */
  lemma UpstreamFailureIs500(req: Request, e: Option<string>)
    requires Plan(req).Run?
    ensures Handle(req, Threw(e)) == Response(500, Some(JsonCorsHeaders),
      FailureBody(QueryErrorMessage, if e.Some? then e.value else "Unknown error"))
  {
  }
}
