/** `handleRtmsControl` of backend/controllers/zoomController.js: validate a
    start/stop request in a fixed order of guards, build the contact-centre API
    call, and turn its outcome into the HTTP answer. The `axios.put` itself is
    an outcome supplied by the caller. */
module RtmsControl {
  import opened JsValues

  /** The request body fields `engagementId` and `action`. */
  datatype Request = Request(engagementId: Option<string>, action: Option<string>)

  /** `ZOOM_APP_CLIENT_ID` and `ZOOM_BEARER_TOKEN`. */
  datatype Config = Config(clientId: Option<string>, bearerToken: Option<string>)

  /** The PUT request: URL, body `{action, settings: {client_id}}`, and the
      `Authorization` header. */
  datatype Outbound = Outbound(url: string, action: string, clientId: string, authorization: string)

  /** What `axios.put` resolves or rejects with: the response data, or the
      upstream status (if there was a response) and the error details. */
  datatype Upstream = Succeeded(data: string) | Failed(status: Option<int>, details: string)

  datatype ReplyBody =
    | ErrorBody(error: string)
    | FailureBody(error: string, details: string)
    | SuccessBody(action: string, engagementId: string, data: string)

  datatype Response = Response(status: int, body: ReplyBody)

  /** Either the guard that stopped the request, or the call to make. */
  datatype Plan = Refuse(response: Response) | Call(request: Outbound)

  const MissingFields := "Missing required fields: engagementId, action"
  const NoBearerToken := "Server configuration error: Bearer token not found"
  const NoClientId := "Server configuration error: Client ID not found"
  const InvalidAction := "Invalid action. Must be \"start\" or \"stop\""

  const ApiPrefix := "https://goocicci.zoom.us/v2/contact_center/"
  const ApiSuffix := "/rtms_app/status"

  /** `zoomApiUrl`. */
  function StatusUrl(engagementId: string): string
  {
    ApiPrefix + engagementId + ApiSuffix
  }

  /** The engagement id a status URL is about. */
  function EngagementOf(url: string): string
    requires |url| >= |ApiPrefix| + |ApiSuffix|
  {
    url[|ApiPrefix|..|url| - |ApiSuffix|]
  }

  /** The URL names exactly the engagement it was built from, so two different
      engagements are never sent to the same URL. */
  lemma StatusUrlRoundTrip(engagementId: string)
    ensures |StatusUrl(engagementId)| >= |ApiPrefix| + |ApiSuffix|
    ensures EngagementOf(StatusUrl(engagementId)) == engagementId
    ensures StatusUrl(engagementId)[..|ApiPrefix|] == ApiPrefix
    ensures StatusUrl(engagementId)[|StatusUrl(engagementId)| - |ApiSuffix|..] == ApiSuffix
  {
    var u := StatusUrl(engagementId);
    assert u[|ApiPrefix|..|u| - |ApiSuffix|] == engagementId;
  }

  /** The guard chain: missing body fields give 400 before any configuration is
      looked at; then a missing bearer token gives 500, then a missing client
      id 500, then an action other than "start" or "stop" 400. Only when all
      four guards pass is a request built. */
  function Validate(req: Request, cfg: Config): (p: Plan)
    ensures !Truthy(req.engagementId) || !Truthy(req.action) ==>
      p == Refuse(Response(400, ErrorBody(MissingFields)))
    ensures Truthy(req.engagementId) && Truthy(req.action) && !Truthy(cfg.bearerToken) ==>
      p == Refuse(Response(500, ErrorBody(NoBearerToken)))
    ensures Truthy(req.engagementId) && Truthy(req.action) && Truthy(cfg.bearerToken) && !Truthy(cfg.clientId) ==>
      p == Refuse(Response(500, ErrorBody(NoClientId)))
    ensures Truthy(req.engagementId) && Truthy(req.action) && Truthy(cfg.bearerToken) && Truthy(cfg.clientId)
            && req.action.value != "start" && req.action.value != "stop" ==>
      p == Refuse(Response(400, ErrorBody(InvalidAction)))
    ensures p.Call? <==>
      Truthy(req.engagementId) && Truthy(cfg.bearerToken) && Truthy(cfg.clientId)
      && (req.action == Some("start") || req.action == Some("stop"))
    ensures p.Call? ==>
      p.request == Outbound(StatusUrl(req.engagementId.value), req.action.value,
                            cfg.clientId.value, "Bearer " + cfg.bearerToken.value)
  {
    if !Truthy(req.engagementId) || !Truthy(req.action) then
      Refuse(Response(400, ErrorBody(MissingFields)))
    else if !Truthy(cfg.bearerToken) then
      Refuse(Response(500, ErrorBody(NoBearerToken)))
    else if !Truthy(cfg.clientId) then
      Refuse(Response(500, ErrorBody(NoClientId)))
    else if req.action.value != "start" && req.action.value != "stop" then
      Refuse(Response(400, ErrorBody(InvalidAction)))
    else
      var eid := req.engagementId.value;
      Call(Outbound(ApiPrefix + eid + ApiSuffix, req.action.value,
                    cfg.clientId.value, "Bearer " + cfg.bearerToken.value))
  }

  /** `handleRtmsControl` end to end, with `upstream` the outcome of the PUT if
      one is made. A refused request gets the guard's answer and the outcome
      plays no part; a success echoes action and engagement id with 200; a
      failure answers with the upstream status if there is a non-zero one,
      else 500. */
  function HandleRtmsControl(req: Request, cfg: Config, upstream: Upstream): (r: Response)
    ensures Validate(req, cfg).Refuse? ==> r == Validate(req, cfg).response
    ensures Validate(req, cfg).Call? && upstream.Succeeded? ==>
      r == Response(200, SuccessBody(req.action.value, req.engagementId.value, upstream.data))
    ensures Validate(req, cfg).Call? && upstream.Failed? ==>
      && r.status == (if upstream.status.Some? && upstream.status.value != 0 then upstream.status.value else 500)
      && r.body == FailureBody("Failed to " + req.action.value + " RTMS", upstream.details)
    ensures r.body.SuccessBody? <==> Validate(req, cfg).Call? && upstream.Succeeded?
  {
    match Validate(req, cfg)
    case Refuse(response) => response
    case Call(out) =>
      match upstream
      case Succeeded(data) => Response(200, SuccessBody(out.action, req.engagementId.value, data))
      case Failed(status, details) =>
        Response(if status.Some? && status.value != 0 then status.value else 500,
                 FailureBody("Failed to " + out.action + " RTMS", details))
  }
}
