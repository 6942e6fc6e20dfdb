/** Requests and responses as the client hands them to, and gets them back
    from, its HTTP transport; the status predicates of the response; the
    client's classification of a transport status into an error kind; and
    the fixed set of outbound headers. */
module Http {
  import opened Errors

  datatype Method = GET | POST | DELETE

  /** An outbound request; `body` is "" when the request has none. */
  datatype Request = Request(verb: Method, url: string, headers: map<string, string>, body: string)

  datatype Response = Response(status: int, headers: map<string, string>, body: string)

  // Status predicates of the transport's response type, by status range.
  predicate IsSuccessful(status: int) { 200 <= status < 300 }
  predicate IsRedirection(status: int) { 300 <= status < 400 }
  predicate IsClientError(status: int) { 400 <= status < 500 }
  predicate IsServerError(status: int) { 500 <= status < 600 }
  predicate IsForbidden(status: int) { status == 403 }
  predicate IsNotFound(status: int) { status == 404 }

  /** The first-match `if/else` chain at the end of `send(request)`: the
      response comes back unchanged, or the first matching error is thrown. */
  function Classify(response: Response): (r: Outcome<Response>)
    ensures r.Returned? ==> r.value == response
  {
    var s := response.status;
    if IsForbidden(s) then Raised(NotAllowedToRequestURI)
    else if IsClientError(s) then Raised(ClientError)
    else if IsServerError(s) then Raised(ServerError)
    else if IsRedirection(s) then Raised(ResponseContainsRedirection)
    else if IsNotFound(s) then Raised(NotFound)
    else if !IsSuccessful(s) then Raised(UnexpectedResponseStatus)
    else Returned(response)
  }

  /** The error kind each status range is reported as, stated range by range
      rather than as a chain. */
  lemma ClassifyByRange(response: Response)
    ensures var s := response.status;
      (s == 403 ==> Classify(response) == Raised(NotAllowedToRequestURI))
      && (400 <= s < 500 && s != 403 ==> Classify(response) == Raised(ClientError))
      && (500 <= s < 600 ==> Classify(response) == Raised(ServerError))
      && (300 <= s < 400 ==> Classify(response) == Raised(ResponseContainsRedirection))
      && (200 <= s < 300 ==> Classify(response) == Returned(response))
      && (s < 200 || s >= 600 ==> Classify(response) == Raised(UnexpectedResponseStatus))
  {
  }

  /** A transport response passes exactly when its status is 2xx; a failing
      one is reported with one of the six transport error kinds. */
  lemma ClassifySucceedsIffSuccessful(response: Response)
    ensures Classify(response).Returned? <==> IsSuccessful(response.status)
    ensures Classify(response).Raised? ==>
              (Classify(response).error in
                 {NotAllowedToRequestURI, ClientError, ServerError, ResponseContainsRedirection, UnexpectedResponseStatus})
  {
  }

  /** A 403 is a client error by range, but the forbidden test comes first. */
  lemma ForbiddenBeforeClientError(response: Response)
    requires response.status == 403
    ensures IsClientError(response.status)
    ensures Classify(response) == Raised(NotAllowedToRequestURI)
  {
  }

  /** 404 lies in the client error range, which is tested first, so the
      `NotFound` branch of the chain is dead. */
  lemma NotFoundNeverReported(response: Response)
    ensures Classify(response) != Raised(NotFound)
  {
  }

  const UserAgent: string := "bb-giantswarm/0.0.1"
  const JsonMediaType: string := "application/json"

  /** The header map `send(request)` installs on every request, stated as
      what it must contain. */
  ghost predicate CarriesClientHeaders(h: map<string, string>, token: string, body: string)
  {
    && h.Keys <= {"Accept", "User-Agent", "Authorization", "Content-Type"}
    && "Accept" in h && h["Accept"] == JsonMediaType
    && "User-Agent" in h && h["User-Agent"] == UserAgent
    && ("Authorization" in h <==> token != "")
    && ("Authorization" in h ==> h["Authorization"] == "giantswarm " + token)
    && ("Content-Type" in h <==> body != "")
    && ("Content-Type" in h ==> h["Content-Type"] == JsonMediaType)
  }

  /** The headers for a request with `body` sent under session `token`. */
  function ClientHeaders(token: string, body: string): (h: map<string, string>)
    ensures CarriesClientHeaders(h, token, body)
  {
    var fixed := map["Accept" := JsonMediaType, "User-Agent" := UserAgent];
    var withAuth := if token == "" then fixed else fixed["Authorization" := "giantswarm " + token];
    if body == "" then withAuth else withAuth["Content-Type" := JsonMediaType]
  }

  /** The header set is determined by the token and the body. */
  lemma ClientHeadersUnique(h: map<string, string>, token: string, body: string)
    requires CarriesClientHeaders(h, token, body)
    ensures h == ClientHeaders(token, body)
  {
    var g := ClientHeaders(token, body);
    assert h.Keys == g.Keys;
  }

  /** `request` as `send(request)` hands it to the transport: its headers
      replaced by the client's headers. */
  function Prepared(request: Request, token: string): (r: Request)
    ensures r.verb == request.verb && r.url == request.url && r.body == request.body
    ensures CarriesClientHeaders(r.headers, token, request.body)
  {
    request.(headers := ClientHeaders(token, request.body))
  }
}
