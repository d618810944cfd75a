/** Classification of HTTP responses from the QQ open API: audit results,
    success, and the error each status code raises. The qq tree does it in
    `Bot._handle_response`; the older qqguild tree does the same inside
    `_request`, which also wraps unexpected failures. */
module ApiResponse {
  import opened Wrappers
  import opened Json

  /** A response: its status code and its decoded body (`None` when the
      body is empty). */
  datatype Response = Response(status: int, body: Option<Json>)

  datatype ApiError =
    | Audit(auditId: Json)     // AuditException
    | ActionFailed
    | Unauthorized
    | ApiNotAvailable
    | RateLimit
    | Malformed                // a non-dict where `.get` is called

  /** `content.get("data", {}).get("message_audit", {}).get("audit_id")`;
      every step needs a dict. */
  function AuditId(content: Json): (r: Result<Option<Json>, ApiError>)
    ensures r.Err? ==> r.error == Malformed
  {
    if !content.JObj? then Err(Malformed)
    else
      var data := Get(content.fields, "data").GetOr(JObj([]));
      if !data.JObj? then Err(Malformed)
      else
        var audit := Get(data.fields, "message_audit").GetOr(JObj([]));
        if !audit.JObj? then Err(Malformed)
        else Ok(Get(audit.fields, "audit_id"))
  }

  /** `_handle_response`: 201 and 202 always raise, other 2xx return the
      body, and each other status raises its own error. */
  function Classify(resp: Response): (r: Result<Option<Json>, ApiError>)
    ensures r.Ok? <==> 200 <= resp.status < 300 && resp.status != 201 && resp.status != 202
    ensures r.Ok? ==> r.value == resp.body
    ensures resp.status == 401 ==> r == Err(Unauthorized)
    ensures resp.status == 404 || resp.status == 405 ==> r == Err(ApiNotAvailable)
    ensures resp.status == 429 ==> r == Err(RateLimit)
    ensures r == Err(Unauthorized) ==> resp.status == 401
    ensures r.Err? && r.error.Audit? ==> (resp.status == 201 || resp.status == 202) && Truthy(r.error.auditId)
    ensures resp.status !in {201, 202, 401, 404, 405, 429} && !(200 <= resp.status < 300) ==> r == Err(ActionFailed)
  {
    if resp.status == 201 || resp.status == 202 then
      if resp.body.Some? && Truthy(resp.body.value) then
        match AuditId(resp.body.value)
        case Err(e) => Err(e)
        case Ok(id) => if id.Some? && Truthy(id.value) then Err(Audit(id.value)) else Err(ActionFailed)
      else Err(ActionFailed)
    else if 200 <= resp.status < 300 then Ok(resp.body)
    else if resp.status == 401 then Err(Unauthorized)
    else if resp.status == 404 || resp.status == 405 then Err(ApiNotAvailable)
    else if resp.status == 429 then Err(RateLimit)
    else Err(ActionFailed)
  }

  /** An accepted message under audit reports its audit id. */
  lemma AuditReported(status: int, id: string, rest: Fields)
    requires status == 201 || status == 202
    requires id != ""
    ensures Classify(Response(status, Some(JObj([("data", JObj([("message_audit", JObj([("audit_id", JStr(id))]))]))] + rest))))
            == Err(Audit(JStr(id)))
  {
  }

  /** The older tree's `_request` failures: the adapter's own exceptions,
      and `NetworkError` for anything else, including a failed request. */
  datatype LegacyError = Adapter(e: ApiError) | NetworkError

  /** The errors the older tree raises by building `ActionFailed` or one
      of its subclasses from the response. */
  predicate BuildsActionFailed(e: ApiError) {
    e == ActionFailed || e == Unauthorized || e == RateLimit
  }

  /** The older `ActionFailed.__init__` reads `code`, `message` and `data`
      from a non-empty body with `.get`, which only a dict has. */
  predicate LegacyBodyReadable(resp: Response) {
    resp.body.None? || resp.body.value.JObj?
  }

  /** `_request` of the older tree: `None` is a request that raised. A
      malformed audit body, and a body that is not a dict when an
      `ActionFailed` is built from it, are not adapter exceptions, so they
      surface as `NetworkError`. */
  function LegacyRequest(reply: Option<Response>): (r: Result<Option<Json>, LegacyError>)
    ensures reply.None? ==> r == Err(NetworkError)
    ensures reply.Some? && Classify(reply.value).Ok? ==> r == Ok(Classify(reply.value).value)
    ensures r.Err? && r.error.Adapter? ==> reply.Some? && Classify(reply.value) == Err(r.error.e) && r.error.e != Malformed
                                           && (BuildsActionFailed(r.error.e) ==> LegacyBodyReadable(reply.value))
    ensures reply.Some? && Classify(reply.value) == Err(Malformed) ==> r == Err(NetworkError)
    ensures reply.Some? && Classify(reply.value).Err? && BuildsActionFailed(Classify(reply.value).error) ==>
              (r == Err(NetworkError) <==> !LegacyBodyReadable(reply.value))
  {
    if reply.None? then Err(NetworkError)
    else
      match Classify(reply.value)
      case Ok(body) => Ok(body)
      case Err(e) =>
        if e == Malformed then Err(NetworkError)
        else if BuildsActionFailed(e) && !LegacyBodyReadable(reply.value) then Err(NetworkError)
        else Err(Adapter(e))
  }

  /** A 4xx or 5xx reply whose body is a JSON list or `null` ends in
      `NetworkError` in the older tree, though it raises `ActionFailed` in
      the qq tree. */
  lemma LegacyListBody(status: int, body: Json)
    requires 400 <= status < 600 && status !in {404, 405}
    requires body.JArr? || body.JNull?
    ensures Classify(Response(status, Some(body))).Err?
    ensures LegacyRequest(Some(Response(status, Some(body)))) == Err(NetworkError)
  {
  }
}
